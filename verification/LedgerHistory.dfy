/** What the tables say about the statements that were executed. */
module LedgerHistory {
  import opened Types
  import opened Ledger

  /** The tables after these statements, from empty ones. */
  function TablesAfter(stmts: seq<Stmt>): Db {
    if stmts == [] then EMPTY_DB else Exec(TablesAfter(stmts[..|stmts| - 1]), stmts[|stmts| - 1])
  }

  predicate IsUpsertOf(stmt: Stmt, u: Uid) {
    stmt.UpsertJob? && stmt.job.uid == u
  }

  function LastUpsert(stmts: seq<Stmt>, u: Uid): (s: Option<Stmt>)
    ensures s.Some? ==> IsUpsertOf(s.value, u)
  {
    if stmts == [] then None
    else if IsUpsertOf(stmts[|stmts| - 1], u) then Some(stmts[|stmts| - 1])
    else LastUpsert(stmts[..|stmts| - 1], u)
  }

  function StartedCount(stmts: seq<Stmt>, u: Uid): nat {
    if stmts == [] then 0
    else
      var last := stmts[|stmts| - 1];
      StartedCount(stmts[..|stmts| - 1], u) + if IsUpsertOf(last, u) && last.status == Running then 1 else 0
  }

  // The last value given for a column that an upsert may leave out.

  function LastError(stmts: seq<Stmt>, u: Uid): Option<string> {
    if stmts == [] then None
    else
      var last := stmts[|stmts| - 1];
      if IsUpsertOf(last, u) && last.lastError.Some? then last.lastError else LastError(stmts[..|stmts| - 1], u)
  }

  function LastSignature(stmts: seq<Stmt>, u: Uid): Option<string> {
    if stmts == [] then None
    else
      var last := stmts[|stmts| - 1];
      if IsUpsertOf(last, u) && last.signature.Some? then last.signature else LastSignature(stmts[..|stmts| - 1], u)
  }

  function LastHash(stmts: seq<Stmt>, u: Uid): Option<Bytes32> {
    if stmts == [] then None
    else
      var last := stmts[|stmts| - 1];
      if IsUpsertOf(last, u) && last.resolutionHash.Some? then last.resolutionHash else LastHash(stmts[..|stmts| - 1], u)
  }

  /** The events inserted while the payment had a row, in order. */
  function Inserted(stmts: seq<Stmt>, u: Uid): seq<EventKind> {
    if stmts == [] then []
    else
      var before, last := stmts[..|stmts| - 1], stmts[|stmts| - 1];
      Inserted(before, u)
      + if last.InsertEvent? && last.uid == u && LastUpsert(before, u).Some? then [last.event] else []
  }

  /** The last verdict upserted while the payment had a row, and the last signature given with one. */
  function LastVerdict(stmts: seq<Stmt>, u: Uid): Option<VerdictRow> {
    if stmts == [] then None
    else
      var before, last := stmts[..|stmts| - 1], stmts[|stmts| - 1];
      if last.UpsertVerdict? && last.uid == u && LastUpsert(before, u).Some? then Some(last.verdict)
      else LastVerdict(before, u)
  }

  function LastVerdictSignature(stmts: seq<Stmt>, u: Uid): Option<string> {
    if stmts == [] then None
    else
      var before, last := stmts[..|stmts| - 1], stmts[|stmts| - 1];
      if last.UpsertVerdict? && last.uid == u && LastUpsert(before, u).Some? && last.verdict.signature.Some?
      then last.verdict.signature
      else LastVerdictSignature(before, u)
  }

  /** Whatever statements were executed in whatever order: a payment's row describes the job and status of its
      last upsert, counts the upserts to `running`, and keeps the last error, signature and hash given. */
  lemma {:induction false} RowIsHistory(stmts: seq<Stmt>, u: Uid)
    ensures var db := TablesAfter(stmts);
      && (u in db.jobs <==> LastUpsert(stmts, u).Some?)
      && (u in db.jobs ==>
            var row, last := db.jobs[u], LastUpsert(stmts, u).value;
            && row.status == last.status && row.attempts == StartedCount(stmts, u)
            && row.lastError == LastError(stmts, u) && row.signature == LastSignature(stmts, u)
            && row.resolutionHash == LastHash(stmts, u)
            && row.payment.pubkey == last.job.pubkey && row.payment.mint == last.job.mint
            && row.payment.slaHash == last.job.slaHash && row.payment.deliveryHash == last.job.deliveryHash
            && row.payment.authority == last.job.authority && row.payment.expiresAt == last.job.expiresAt
            && row.payment.amount == Min(last.job.amount, 0x7FFF_FFFF_FFFF_FFFF))
      && (u !in db.jobs ==> StartedCount(stmts, u) == 0 && LastError(stmts, u).None?
                            && LastSignature(stmts, u).None? && LastHash(stmts, u).None?)
    decreases |stmts|
  {
    if stmts != [] {
      RowIsHistory(stmts[..|stmts| - 1], u);
    }
  }

  /** Likewise the verdict row: the last verdict, with the last signature given; and the event log. */
  lemma {:induction false} VerdictAndLogAreHistory(stmts: seq<Stmt>, u: Uid)
    ensures var db := TablesAfter(stmts);
      && EventsOf(db, u) == Inserted(stmts, u)
      && (u in db.verdicts <==> LastVerdict(stmts, u).Some?)
      && (u in db.verdicts ==>
            var v, last := db.verdicts[u], LastVerdict(stmts, u).value;
            && v.approved == last.approved && v.reason == last.reason && v.resolutionHash == last.resolutionHash
            && v.checks == last.checks && v.signature == LastVerdictSignature(stmts, u))
      && (u !in db.verdicts ==> LastVerdictSignature(stmts, u).None?)
    decreases |stmts|
  {
    if stmts != [] {
      var before := stmts[..|stmts| - 1];
      VerdictAndLogAreHistory(before, u);
      RowIsHistory(before, u);
    }
  }
}
