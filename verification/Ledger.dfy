/** The PostgreSQL ledger: three tables, the statements that change them, and the record calls. */
module Ledger {
  import opened Types

  const I64_MAX: nat := 0x7FFF_FFFF_FFFF_FFFF

  datatype Status = Detected | Queued | Running | Failed | DeadLetter | Settled

  datatype EventKind = EvDetected | EvQueued | EvStarted | EvFailed | EvDeadLetter | EvSettled

  /** The descriptive columns, overwritten by every upsert. */
  datatype PaymentColumns = PaymentColumns(
    pubkey: Pubkey,
    mint: Pubkey,
    amount: nat,
    slaHash: Bytes32,
    deliveryHash: Bytes32,
    authority: Pubkey,
    expiresAt: int)

  datatype JobRow = JobRow(
    payment: PaymentColumns,
    status: Status,
    attempts: nat,
    lastError: Option<string>,
    signature: Option<string>,
    resolutionHash: Option<Bytes32>)

  datatype VerdictRow = VerdictRow(
    approved: bool,
    reason: ResolutionReason,
    resolutionHash: Bytes32,
    checks: seq<CheckResult>,
    signature: Option<string>)

  /** Table contents. Lifecycle events are kept per payment, in insertion order. */
  datatype Db = Db(
    jobs: map<Uid, JobRow>,
    verdicts: map<Uid, VerdictRow>,
    events: map<Uid, seq<EventKind>>)

  const EMPTY_DB := Db(map[], map[], map[])

  /** One SQL statement. */
  datatype Stmt =
    | UpsertJob(job: EvaluationJob, status: Status, lastError: Option<string>,
                signature: Option<string>, resolutionHash: Option<Bytes32>)
    | UpsertVerdict(uid: Uid, verdict: VerdictRow)
    | InsertEvent(uid: Uid, event: EventKind)

  function Coalesce<T>(a: Option<T>, b: Option<T>): Option<T> {
    if a.Some? then a else b
  }

  function Columns(job: EvaluationJob): PaymentColumns {
    PaymentColumns(job.pubkey, job.mint, if job.amount <= I64_MAX then job.amount else I64_MAX,
                   job.slaHash, job.deliveryHash, job.authority, job.expiresAt)
  }

  function MergeJob(prior: Option<JobRow>, s: Stmt): JobRow
    requires s.UpsertJob?
  {
    var started := if s.status == Running then 1 else 0;
    match prior
    case None => JobRow(Columns(s.job), s.status, started, s.lastError, s.signature, s.resolutionHash)
    case Some(row) =>
      JobRow(Columns(s.job), s.status, row.attempts + started,
             Coalesce(s.lastError, row.lastError),
             Coalesce(s.signature, row.signature),
             Coalesce(s.resolutionHash, row.resolutionHash))
  }

  function Lookup<K, V>(m: map<K, V>, k: K): Option<V> {
    if k in m then Some(m[k]) else None
  }

  function EventsOf(db: Db, uid: Uid): seq<EventKind> {
    if uid in db.events then db.events[uid] else []
  }

  /** The effect of one statement. Verdicts and events select their job row and insert nothing without it. */
  function Exec(db: Db, s: Stmt): Db {
    match s
    case UpsertJob(job, _, _, _, _) =>
      db.(jobs := db.jobs[job.uid := MergeJob(Lookup(db.jobs, job.uid), s)])
    case UpsertVerdict(uid, v) =>
      if uid !in db.jobs then db
      else
        var signature := if uid in db.verdicts then Coalesce(v.signature, db.verdicts[uid].signature) else v.signature;
        db.(verdicts := db.verdicts[uid := v.(signature := signature)])
    case InsertEvent(uid, e) =>
      if uid !in db.jobs then db else db.(events := db.events[uid := EventsOf(db, uid) + [e]])
  }

  function StmtUid(s: Stmt): Uid {
    match s
    case UpsertJob(job, _, _, _, _) => job.uid
    case UpsertVerdict(uid, _) => uid
    case InsertEvent(uid, _) => uid
  }

  // The record calls, each a fixed list of statements.

  function StatusCall(job: EvaluationJob, status: Status, error: Option<string>, event: EventKind): seq<Stmt> {
    [UpsertJob(job, status, error, None, None), InsertEvent(job.uid, event)]
  }

  function DetectedCall(job: EvaluationJob): seq<Stmt> { StatusCall(job, Detected, None, EvDetected) }

  function QueuedCall(job: EvaluationJob): seq<Stmt> { StatusCall(job, Queued, None, EvQueued) }

  function StartedCall(job: EvaluationJob): seq<Stmt> { StatusCall(job, Running, None, EvStarted) }

  function FailedCall(job: EvaluationJob, error: string): seq<Stmt> {
    StatusCall(job, Failed, Some(error), EvFailed)
  }

  function DeadLetterCall(job: EvaluationJob, error: string): seq<Stmt> {
    StatusCall(job, DeadLetter, Some(error), EvDeadLetter)
  }

  function SettledCall(job: EvaluationJob, o: PipelineOutcome): seq<Stmt> {
    [UpsertJob(job, Settled, None, o.signature, Some(o.resolutionHash)),
     UpsertVerdict(job.uid, VerdictRow(o.result.approved, o.result.reason, o.resolutionHash,
                                       o.result.checks, o.signature)),
     InsertEvent(job.uid, EvSettled)]
  }

  predicate IsTerminal(db: Db, uid: Uid) {
    uid in db.jobs && (db.jobs[uid].status == Settled || db.jobs[uid].status == DeadLetter)
  }

  function AttemptCount(db: Db, uid: Uid): nat {
    if uid in db.jobs then db.jobs[uid].attempts else 0
  }

  /** What becomes of a statement: done; not done and reported; done but reported as failed (a lost
      reply or a query timeout); or the process dies before issuing it. */
  datatype Fate = Applied | Lost | ReplyLost | Crash

  datatype CallStatus = CallOk | CallErr | CallCrashed

  datatype CallResult = CallResult(db: Db, status: CallStatus)

  /** A record call runs its statements in order and stops at the first one reported as failed. */
  function RunCall(db: Db, stmts: seq<Stmt>, fate: nat -> Fate, at: nat): CallResult
    decreases |stmts|
  {
    if stmts == [] then CallResult(db, CallOk)
    else match fate(at)
      case Applied => RunCall(Exec(db, stmts[0]), stmts[1..], fate, at + 1)
      case Lost => CallResult(db, CallErr)
      case ReplyLost => CallResult(Exec(db, stmts[0]), CallErr)
      case Crash => CallResult(db, CallCrashed)
  }

  lemma RunOne(db: Db, call: seq<Stmt>, fate: nat -> Fate, at: nat)
    requires |call| == 1
    ensures RunCall(db, call, fate, at) ==
      match fate(at)
      case Applied => CallResult(Exec(db, call[0]), CallOk)
      case Lost => CallResult(db, CallErr)
      case ReplyLost => CallResult(Exec(db, call[0]), CallErr)
      case Crash => CallResult(db, CallCrashed)
  {
    assert call[1..] == [];
  }

  lemma RunTwo(db: Db, call: seq<Stmt>, fate: nat -> Fate, at: nat)
    requires |call| == 2
    ensures RunCall(db, call, fate, at) ==
      match fate(at)
      case Applied => RunCall(Exec(db, call[0]), [call[1]], fate, at + 1)
      case Lost => CallResult(db, CallErr)
      case ReplyLost => CallResult(Exec(db, call[0]), CallErr)
      case Crash => CallResult(db, CallCrashed)
    ensures fate(at) == Applied && fate(at + 1) == Applied ==>
      RunCall(db, call, fate, at) == CallResult(Exec(Exec(db, call[0]), call[1]), CallOk)
  {
    assert call[1..] == [call[1]];
    RunOne(Exec(db, call[0]), [call[1]], fate, at + 1);
  }

  lemma RunThree(db: Db, call: seq<Stmt>, fate: nat -> Fate, at: nat)
    requires |call| == 3
    ensures RunCall(db, call, fate, at) ==
      match fate(at)
      case Applied => RunCall(Exec(db, call[0]), [call[1], call[2]], fate, at + 1)
      case Lost => CallResult(db, CallErr)
      case ReplyLost => CallResult(Exec(db, call[0]), CallErr)
      case Crash => CallResult(db, CallCrashed)
    ensures fate(at) == Applied && fate(at + 1) == Applied && fate(at + 2) == Applied ==>
      RunCall(db, call, fate, at) == CallResult(Exec(Exec(Exec(db, call[0]), call[1]), call[2]), CallOk)
  {
    assert call[1..] == [call[1], call[2]];
    RunTwo(Exec(db, call[0]), [call[1], call[2]], fate, at + 1);
  }

  /** The ledger object the worker and the HTTP handler share. A statement whose fate is `Crash`
      ends the process, so no call that returns has met one. */
  class OracleDb {
    var jobs: map<Uid, JobRow>
    var verdicts: map<Uid, VerdictRow>
    var events: map<Uid, seq<EventKind>>

    ghost function Contents(): Db
      reads this
    {
      Db(jobs, verdicts, events)
    }

    constructor ()
      ensures Contents() == EMPTY_DB
    {
      jobs, verdicts, events := map[], map[], map[];
    }

    method Execute(s: Stmt, fate: Fate) returns (ok: bool)
      requires fate != Crash
      modifies this
      ensures Contents() == if fate == Lost then old(Contents()) else Exec(old(Contents()), s)
      ensures ok == (fate == Applied)
    {
      if fate == Lost {
        return false;
      }
      match s {
        case UpsertJob(job, _, _, _, _) =>
          jobs := jobs[job.uid := MergeJob(Lookup(jobs, job.uid), s)];
        case UpsertVerdict(uid, v) =>
          if uid in jobs {
            var signature := v.signature;
            if uid in verdicts {
              signature := Coalesce(signature, verdicts[uid].signature);
            }
            verdicts := verdicts[uid := v.(signature := signature)];
          }
        case InsertEvent(uid, e) =>
          if uid in jobs {
            var log := [];
            if uid in events {
              log := events[uid];
            }
            events := events[uid := log + [e]];
          }
      }
      ok := fate == Applied;
    }

    /** The shape of every record call but `RecordSettled`: an upsert, then its lifecycle event. */
    method RecordStatus(job: EvaluationJob, status: Status, error: Option<string>, event: EventKind,
                        fate: nat -> Fate, at: nat)
      returns (ok: bool)
      requires forall i: nat :: fate(i) != Crash
      modifies this
      ensures Contents() == RunCall(old(Contents()), StatusCall(job, status, error, event), fate, at).db
      ensures RunCall(old(Contents()), StatusCall(job, status, error, event), fate, at).status
           == if ok then CallOk else CallErr
    {
      ghost var before, call := Contents(), StatusCall(job, status, error, event);
      RunTwo(before, call, fate, at);
      ok := Execute(UpsertJob(job, status, error, None, None), fate(at));
      if ok {
        ok := Execute(InsertEvent(job.uid, event), fate(at + 1));
      }
    }

    method RecordSettled(job: EvaluationJob, o: PipelineOutcome, fate: nat -> Fate, at: nat) returns (ok: bool)
      requires forall i: nat :: fate(i) != Crash
      modifies this
      ensures Contents() == RunCall(old(Contents()), SettledCall(job, o), fate, at).db
      ensures RunCall(old(Contents()), SettledCall(job, o), fate, at).status == if ok then CallOk else CallErr
    {
      ghost var call := SettledCall(job, o);
      RunThree(Contents(), call, fate, at);
      ok := Execute(UpsertJob(job, Settled, None, o.signature, Some(o.resolutionHash)), fate(at));
      if !ok {
        return;
      }
      var v := VerdictRow(o.result.approved, o.result.reason, o.resolutionHash, o.result.checks, o.signature);
      ok := Execute(UpsertVerdict(job.uid, v), fate(at + 1));
      if !ok {
        return;
      }
      ok := Execute(InsertEvent(job.uid, EvSettled), fate(at + 2));
    }

    method Terminal(uid: Uid) returns (r: bool)
      ensures r == IsTerminal(Contents(), uid)
    {
      if uid !in jobs {
        return false;
      }
      return jobs[uid].status == Settled || jobs[uid].status == DeadLetter;
    }

    method Attempts(uid: Uid) returns (n: nat)
      ensures n == AttemptCount(Contents(), uid)
    {
      if uid !in jobs {
        return 0;
      }
      return jobs[uid].attempts;
    }
  }
}
