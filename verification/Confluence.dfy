/** The order in which the backfill and the live monitor deliver jobs does not matter. */
module Confluence {
  import opened Types
  import opened Ledger
  import opened Worker
  import opened CleanRuns

  /** What is fixed per payment: the job read from chain, and how its first, second, ... run ends. */
  datatype World = World(job: Uid -> EvaluationJob, script: Uid -> nat -> PipelineResult)

  ghost predicate ValidWorld(world: World) {
    forall u :: world.job(u).uid == u && forall k: nat :: !world.script(u)(k).Died?
  }

  /** One copy of a payment's job reaches the fault-free worker. */
  function Arrive(maxAttempts: nat, world: World, w: WorkerState, u: Uid): WorkerState
    requires w.ledger.Some?
  {
    Process(maxAttempts, w, world.job(u),
            CleanEnv(world.script(u)(AttemptCount(w.ledger.value, u)))).0
  }

  lemma ArriveForm(maxAttempts: nat, world: World, w: WorkerState, u: Uid)
    requires ValidWorld(world) && w.ledger.Some?
    ensures Arrive(maxAttempts, world, w, u).ledger.Some?
    ensures var db := w.ledger.value;
      var n := AttemptCount(db, u) + 1;
      var p := world.script(u)(n - 1);
      var ending := EndingOf(maxAttempts, n, p);
      Arrive(maxAttempts, world, w, u) ==
      if IsTerminal(db, u) then w
      else ReleaseMemory(w.(ledger := Some(DbAfter(db, world.job(u), ending, p)), stats := CountRun(w.stats, ending)),
                         u, ending)
  {
    var p := world.script(u)(AttemptCount(w.ledger.value, u));
    CleanProcess(maxAttempts, w, world.job(u), CleanEnv(p));
  }

  function ArriveAll(maxAttempts: nat, world: World, w: WorkerState, order: seq<Uid>): (r: WorkerState)
    requires w.ledger.Some? && ValidWorld(world)
    ensures r.ledger.Some?
    decreases |order|
  {
    if order == [] then w
    else
      ArriveForm(maxAttempts, world, w, order[0]);
      ArriveAll(maxAttempts, world, Arrive(maxAttempts, world, w, order[0]), order[1..])
  }

  lemma DbAfterCommutes(db: Db, j: EvaluationJob, e: Ending, p: PipelineResult,
                        k: EvaluationJob, f: Ending, q: PipelineResult)
    requires j.uid != k.uid
    requires (e.EndSettled? ==> p.Completed?) && (f.EndSettled? ==> q.Completed?)
    ensures DbAfter(DbAfter(db, j, e, p), k, f, q) == DbAfter(DbAfter(db, k, f, q), j, e, p)
  {
    var dj, dk := DbAfter(db, j, e, p), DbAfter(db, k, f, q);
    assert Lookup(dj.jobs, k.uid) == Lookup(db.jobs, k.uid) && Lookup(dk.jobs, j.uid) == Lookup(db.jobs, j.uid);
    assert EventsOf(dj, k.uid) == EventsOf(db, k.uid) && EventsOf(dk, j.uid) == EventsOf(db, j.uid);
    UpdatesCommute(db.jobs, j.uid, dj.jobs[j.uid], k.uid, dk.jobs[k.uid]);
    UpdatesCommute(db.events, j.uid, dj.events[j.uid], k.uid, dk.events[k.uid]);
    VerdictsCommute(db.verdicts, j.uid, e, p, k.uid, f, q);
  }

  lemma UpdatesCommute<K, V>(m: map<K, V>, j: K, v: V, k: K, w: V)
    requires j != k
    ensures m[j := v][k := w] == m[k := w][j := v]
  {
  }

  lemma VerdictsCommute(verdicts: map<Uid, VerdictRow>, u: Uid, e: Ending, p: PipelineResult,
                        v: Uid, f: Ending, q: PipelineResult)
    requires u != v && (e.EndSettled? ==> p.Completed?) && (f.EndSettled? ==> q.Completed?)
    ensures VerdictsAfter(VerdictsAfter(verdicts, u, e, p), v, f, q)
         == VerdictsAfter(VerdictsAfter(verdicts, v, f, q), u, e, p)
  {
    if e.EndSettled? && f.EndSettled? {
      UpdatesCommute(verdicts, u, VerdictAfter(Lookup(verdicts, u), p.outcome),
                     v, VerdictAfter(Lookup(verdicts, v), q.outcome));
    }
  }

  lemma UntouchedPayment(db: Db, j: EvaluationJob, e: Ending, p: PipelineResult, u: Uid)
    requires j.uid != u && (e.EndSettled? ==> p.Completed?)
    ensures AttemptCount(DbAfter(db, j, e, p), u) == AttemptCount(db, u)
    ensures IsTerminal(DbAfter(db, j, e, p), u) == IsTerminal(db, u)
  {
  }

  lemma MemoryCommutes(w: WorkerState, u: Uid, e: Ending, v: Uid, f: Ending)
    ensures ReleaseMemory(ReleaseMemory(w, u, e), v, f) == ReleaseMemory(ReleaseMemory(w, v, f), u, e)
  {
    assert w.processed - {u} - {v} == w.processed - {v} - {u};
    assert w.attempts - {u} - {v} == w.attempts - {v} - {u};
  }

  lemma ArrivalsCommute(maxAttempts: nat, world: World, w: WorkerState, u: Uid, v: Uid)
    requires ValidWorld(world) && w.ledger.Some?
    ensures ArriveAll(maxAttempts, world, w, [u, v]) == ArriveAll(maxAttempts, world, w, [v, u])
  {
    TwoArrivals(maxAttempts, world, w, u, v);
    TwoArrivals(maxAttempts, world, w, v, u);
    if u != v {
      var db := w.ledger.value;
      ArriveForm(maxAttempts, world, w, u);
      ArriveForm(maxAttempts, world, w, v);
      if IsTerminal(db, u) {
        ArriveAfterOther(maxAttempts, world, w, v, u);
      } else if IsTerminal(db, v) {
        ArriveAfterOther(maxAttempts, world, w, u, v);
      } else {
        BothRun(maxAttempts, world, w, u, v);
      }
    }
  }

  /** Whether and how a payment runs does not depend on an earlier arrival of another payment. */
  lemma ArriveAfterOther(maxAttempts: nat, world: World, w: WorkerState, u: Uid, v: Uid)
    requires ValidWorld(world) && w.ledger.Some? && u != v
    ensures var w' := Arrive(maxAttempts, world, w, u);
      && w'.ledger.Some?
      && IsTerminal(w'.ledger.value, v) == IsTerminal(w.ledger.value, v)
      && AttemptCount(w'.ledger.value, v) == AttemptCount(w.ledger.value, v)
      && (IsTerminal(w.ledger.value, v) ==> Arrive(maxAttempts, world, w', v) == w')
  {
    ArriveForm(maxAttempts, world, w, u);
    var w' := Arrive(maxAttempts, world, w, u);
    ArriveForm(maxAttempts, world, w', v);
    if !IsTerminal(w.ledger.value, u) {
      var n := AttemptCount(w.ledger.value, u) + 1;
      var p := world.script(u)(n - 1);
      UntouchedPayment(w.ledger.value, world.job(u), EndingOf(maxAttempts, n, p), p, v);
    }
  }

  lemma BothRun(maxAttempts: nat, world: World, w: WorkerState, u: Uid, v: Uid)
    requires ValidWorld(world) && w.ledger.Some? && u != v
    requires !IsTerminal(w.ledger.value, u) && !IsTerminal(w.ledger.value, v)
    ensures Arrive(maxAttempts, world, w, u).ledger.Some? && Arrive(maxAttempts, world, w, v).ledger.Some?
    ensures Arrive(maxAttempts, world, Arrive(maxAttempts, world, w, u), v)
         == Arrive(maxAttempts, world, Arrive(maxAttempts, world, w, v), u)
  {
    var db := w.ledger.value;
    var n, m := AttemptCount(db, u) + 1, AttemptCount(db, v) + 1;
    var p, q := world.script(u)(n - 1), world.script(v)(m - 1);
    var e, f := EndingOf(maxAttempts, n, p), EndingOf(maxAttempts, m, q);
    ArriveAfterOther(maxAttempts, world, w, u, v);
    ArriveAfterOther(maxAttempts, world, w, v, u);
    RunForm(maxAttempts, world, w, u);
    RunForm(maxAttempts, world, w, v);
    RunForm(maxAttempts, world, Arrive(maxAttempts, world, w, u), v);
    RunForm(maxAttempts, world, Arrive(maxAttempts, world, w, v), u);
    DbAfterCommutes(db, world.job(u), e, p, world.job(v), f, q);
    RanCommutes(w, DbAfter(db, world.job(u), e, p), DbAfter(db, world.job(v), f, q),
                DbAfter(DbAfter(db, world.job(u), e, p), world.job(v), f, q), u, e, v, f);
  }

  /** The worker after a run that left this ledger. */
  function AfterRun(w: WorkerState, db: Db, u: Uid, e: Ending): WorkerState {
    ReleaseMemory(w.(ledger := Some(db), stats := CountRun(w.stats, e)), u, e)
  }

  lemma RunForm(maxAttempts: nat, world: World, w: WorkerState, u: Uid)
    requires ValidWorld(world) && w.ledger.Some? && !IsTerminal(w.ledger.value, u)
    ensures var n := AttemptCount(w.ledger.value, u) + 1;
      var p := world.script(u)(n - 1);
      var e := EndingOf(maxAttempts, n, p);
      Arrive(maxAttempts, world, w, u) == AfterRun(w, DbAfter(w.ledger.value, world.job(u), e, p), u, e)
  {
    ArriveForm(maxAttempts, world, w, u);
  }

  lemma RanCommutes(w: WorkerState, dbU: Db, dbV: Db, both: Db, u: Uid, e: Ending, v: Uid, f: Ending)
    ensures AfterRun(AfterRun(w, dbU, u, e), both, v, f) == AfterRun(AfterRun(w, dbV, v, f), both, u, e)
  {
    MemoryCommutes(w, u, e, v, f);
    assert CountRun(CountRun(w.stats, e), f) == CountRun(CountRun(w.stats, f), e);
  }

  lemma TwoArrivals(maxAttempts: nat, world: World, w: WorkerState, u: Uid, v: Uid)
    requires ValidWorld(world) && w.ledger.Some?
    ensures Arrive(maxAttempts, world, w, u).ledger.Some?
    ensures ArriveAll(maxAttempts, world, w, [u, v])
         == Arrive(maxAttempts, world, Arrive(maxAttempts, world, w, u), v)
  {
    ArriveForm(maxAttempts, world, w, u);
    var w' := Arrive(maxAttempts, world, w, u);
    ArriveForm(maxAttempts, world, w', v);
    assert [u, v][1..] == [v];
    assert ArriveAll(maxAttempts, world, w', [v]) == Arrive(maxAttempts, world, w', v);
  }

  lemma {:induction false} ArriveAllConcat(maxAttempts: nat, world: World, w: WorkerState, a: seq<Uid>, b: seq<Uid>)
    requires ValidWorld(world) && w.ledger.Some?
    ensures ArriveAll(maxAttempts, world, w, a + b)
         == ArriveAll(maxAttempts, world, ArriveAll(maxAttempts, world, w, a), b)
    decreases |a|
  {
    if a == [] {
      assert a + b == b;
    } else {
      assert (a + b)[1..] == a[1..] + b;
      ArriveForm(maxAttempts, world, w, a[0]);
      ArriveAllConcat(maxAttempts, world, Arrive(maxAttempts, world, w, a[0]), a[1..], b);
    }
  }

  /** A later arrival can be moved to the front. */
  lemma {:induction false} MoveToFront(maxAttempts: nat, world: World, w: WorkerState, a: seq<Uid>, u: Uid)
    requires ValidWorld(world) && w.ledger.Some?
    ensures ArriveAll(maxAttempts, world, w, a + [u]) == ArriveAll(maxAttempts, world, w, [u] + a)
    decreases |a|
  {
    if a == [] {
      assert a + [u] == [u] + a;
    } else {
      var last := |a| - 1;
      var b, v := a[..last], a[last];
      assert a + [u] == b + [v, u] && b + [u, v] == (b + [u]) + [v] && [u] + a == ([u] + b) + [v];
      ArriveAllConcat(maxAttempts, world, w, b, [v, u]);
      ArriveAllConcat(maxAttempts, world, w, b, [u, v]);
      ArrivalsCommute(maxAttempts, world, ArriveAll(maxAttempts, world, w, b), u, v);
      ArriveAllConcat(maxAttempts, world, w, b + [u], [v]);
      MoveToFront(maxAttempts, world, w, b, u);
      ArriveAllConcat(maxAttempts, world, w, [u] + b, [v]);
    }
  }

  /** Any two merges of the same copies leave the same rows, verdicts, event logs and counters. */
  lemma {:induction false} MergeOrderIrrelevant(
    maxAttempts: nat, world: World, w: WorkerState, a: seq<Uid>, b: seq<Uid>)
    requires ValidWorld(world) && w.ledger.Some? && multiset(a) == multiset(b)
    ensures ArriveAll(maxAttempts, world, w, a) == ArriveAll(maxAttempts, world, w, b)
    decreases |a|
  {
    if a == [] {
      assert b == [] by { assert |multiset(b)| == 0; }
    } else {
      var u := a[0];
      assert u in multiset(b);
      var i :| 0 <= i < |b| && b[i] == u;
      var rest := b[..i] + b[i + 1..];
      SplitAt(b, i);
      BringForward(maxAttempts, world, w, b, i);
      assert a == [u] + a[1..];
      assert multiset(a[1..]) == multiset(a) - multiset{u};
      ArriveForm(maxAttempts, world, w, u);
      MergeOrderIrrelevant(maxAttempts, world, Arrive(maxAttempts, world, w, u), a[1..], rest);
    }
  }

  lemma BringForward(maxAttempts: nat, world: World, w: WorkerState, b: seq<Uid>, i: nat)
    requires ValidWorld(world) && w.ledger.Some? && i < |b|
    ensures Arrive(maxAttempts, world, w, b[i]).ledger.Some?
    ensures ArriveAll(maxAttempts, world, w, b)
         == ArriveAll(maxAttempts, world, Arrive(maxAttempts, world, w, b[i]), b[..i] + b[i + 1..])
  {
    var rest := b[..i] + b[i + 1..];
    SplitAt(b, i);
    ArriveAllConcat(maxAttempts, world, w, b[..i] + [b[i]], b[i + 1..]);
    ArriveAllConcat(maxAttempts, world, w, [b[i]] + b[..i], b[i + 1..]);
    MoveToFront(maxAttempts, world, w, b[..i], b[i]);
    ArriveForm(maxAttempts, world, w, b[i]);
    assert ([b[i]] + rest)[0] == b[i] && ([b[i]] + rest)[1..] == rest;
  }

  lemma SplitAt(b: seq<Uid>, i: nat)
    requires i < |b|
    ensures b == (b[..i] + [b[i]]) + b[i + 1..]
    ensures [b[i]] + (b[..i] + b[i + 1..]) == ([b[i]] + b[..i]) + b[i + 1..]
    ensures multiset(b) - multiset{b[i]} == multiset(b[..i] + b[i + 1..])
  {
    assert b == (b[..i] + [b[i]]) + b[i + 1..];
    assert multiset(b) == multiset(b[..i]) + multiset{b[i]} + multiset(b[i + 1..]);
  }

  /** Once a payment is terminal, its row, verdict and log never change again. */
  lemma {:induction false} TerminalIsAbsorbing(
    maxAttempts: nat, world: World, w: WorkerState, order: seq<Uid>, u: Uid)
    requires ValidWorld(world) && w.ledger.Some? && IsTerminal(w.ledger.value, u)
    ensures var db, db' := w.ledger.value, ArriveAll(maxAttempts, world, w, order).ledger.value;
      && Lookup(db'.jobs, u) == Lookup(db.jobs, u)
      && Lookup(db'.verdicts, u) == Lookup(db.verdicts, u)
      && EventsOf(db', u) == EventsOf(db, u)
    decreases |order|
  {
    if order != [] {
      ArriveForm(maxAttempts, world, w, order[0]);
      TerminalIsAbsorbing(maxAttempts, world, Arrive(maxAttempts, world, w, order[0]), order[1..], u);
    }
  }

  /** Copies that arrive after a payment is terminal change nothing at all, wherever they are mixed in. */
  lemma {:induction false} LateCopiesAbsorbed(
    maxAttempts: nat, world: World, w: WorkerState, order: seq<Uid>, u: Uid)
    requires ValidWorld(world) && w.ledger.Some? && IsTerminal(w.ledger.value, u)
    ensures ArriveAll(maxAttempts, world, w, order)
         == ArriveAll(maxAttempts, world, w, Without(order, u))
    decreases |order|
  {
    if order != [] {
      ArriveForm(maxAttempts, world, w, order[0]);
      var w' := Arrive(maxAttempts, world, w, order[0]);
      assert [order[0]] + Without(order[1..], u) != [];
      assert ([order[0]] + Without(order[1..], u))[1..] == Without(order[1..], u);
      if order[0] != u {
        TerminalIsAbsorbing(maxAttempts, world, w, [order[0]], u);
        assert [order[0]][1..] == [];
        assert Lookup(w'.ledger.value.jobs, u) == Lookup(w.ledger.value.jobs, u);
      }
      LateCopiesAbsorbed(maxAttempts, world, w', order[1..], u);
    }
  }

  function Without(order: seq<Uid>, u: Uid): seq<Uid> {
    if order == [] then []
    else if order[0] == u then Without(order[1..], u)
    else [order[0]] + Without(order[1..], u)
  }

  /** One copy is harmless if and only if the payment is terminal; otherwise it spends exactly one attempt. */
  lemma CopyHarmlessIffTerminal(maxAttempts: nat, world: World, w: WorkerState, u: Uid)
    requires ValidWorld(world) && w.ledger.Some?
    ensures var w' := Arrive(maxAttempts, world, w, u);
      && w'.ledger.Some?
      && (w' == w <==> IsTerminal(w.ledger.value, u))
      && AttemptCount(w'.ledger.value, u)
         == AttemptCount(w.ledger.value, u) + if IsTerminal(w.ledger.value, u) then 0 else 1
  {
    ArriveForm(maxAttempts, world, w, u);
  }

  /** An extra copy mixed in anywhere is harmless if and only if the payment is terminal without it. */
  lemma ExtraCopyHarmlessIffTerminal(maxAttempts: nat, world: World, w: WorkerState, a: seq<Uid>, b: seq<Uid>, u: Uid)
    requires ValidWorld(world) && w.ledger.Some?
    ensures ArriveAll(maxAttempts, world, w, a + [u] + b) == ArriveAll(maxAttempts, world, w, a + b) <==>
            IsTerminal(ArriveAll(maxAttempts, world, w, a + b).ledger.value, u)
  {
    var without := ArriveAll(maxAttempts, world, w, a + b);
    assert multiset(a + [u] + b) == multiset(a + b + [u]);
    MergeOrderIrrelevant(maxAttempts, world, w, a + [u] + b, a + b + [u]);
    ArriveAllConcat(maxAttempts, world, w, a + b, [u]);
    OneArrival(maxAttempts, world, without, u);
    CopyHarmlessIffTerminal(maxAttempts, world, without, u);
  }

  lemma OneArrival(maxAttempts: nat, world: World, w: WorkerState, u: Uid)
    requires ValidWorld(world) && w.ledger.Some?
    ensures ArriveAll(maxAttempts, world, w, [u]) == Arrive(maxAttempts, world, w, u)
  {
    ArriveForm(maxAttempts, world, w, u);
    assert [u][1..] == [];
    assert ArriveAll(maxAttempts, world, Arrive(maxAttempts, world, w, u), [])
        == Arrive(maxAttempts, world, w, u);
  }

  // Progress.

  /** Given `done` attempts, the attempt that closes the payment: the first that settles, or the last one the
      budget allows. */
  function ClosingAttempt(maxAttempts: nat, script: nat -> PipelineResult, done: nat): (n: nat)
    ensures done < n <= (if done < maxAttempts then maxAttempts else done + 1)
    decreases maxAttempts - done
  {
    if script(done).Completed? || done + 1 >= maxAttempts then done + 1
    else ClosingAttempt(maxAttempts, script, done + 1)
  }

  function Copies(order: seq<Uid>, u: Uid): nat {
    if order == [] then 0 else (if order[0] == u then 1 else 0) + Copies(order[1..], u)
  }

  /** The payment's row after this many copies, if it was open with `done` attempts before them. */
  ghost predicate FollowsScript(maxAttempts: nat, script: nat -> PipelineResult, done: nat, copies: nat, db: Db, u: Uid)
  {
    var n := ClosingAttempt(maxAttempts, script, done);
    && AttemptCount(db, u) == Min(done + copies, n)
    && (IsTerminal(db, u) <==> done + copies >= n)
    && (IsTerminal(db, u) ==> db.jobs[u].status == if script(n - 1).Completed? then Settled else DeadLetter)
  }

  /** What one copy of an open payment does to its row. */
  lemma OpenCopyRuns(maxAttempts: nat, world: World, w: WorkerState, u: Uid)
    requires ValidWorld(world) && w.ledger.Some? && !IsTerminal(w.ledger.value, u)
    ensures var done := AttemptCount(w.ledger.value, u);
      var w' := Arrive(maxAttempts, world, w, u);
      && w'.ledger.Some? && u in w'.ledger.value.jobs && w'.ledger.value.jobs[u].attempts == done + 1
      && w'.ledger.value.jobs[u].status
         == if world.script(u)(done).Completed? then Settled else if done + 1 >= maxAttempts then DeadLetter else Failed
  {
    ArriveForm(maxAttempts, world, w, u);
  }

  /** Copies of an open payment run until its closing attempt, whatever else arrives in between. */
  lemma {:induction false} OpenPaymentProgress(
    maxAttempts: nat, world: World, w: WorkerState, order: seq<Uid>, u: Uid)
    requires ValidWorld(world) && w.ledger.Some? && !IsTerminal(w.ledger.value, u)
    ensures FollowsScript(maxAttempts, world.script(u), AttemptCount(w.ledger.value, u), Copies(order, u),
                          ArriveAll(maxAttempts, world, w, order).ledger.value, u)
    decreases |order|
  {
    if order != [] {
      if order[0] == u {
        OwnCopyFirst(maxAttempts, world, w, order, u);
      } else {
        ArriveForm(maxAttempts, world, w, order[0]);
        ArriveAfterOther(maxAttempts, world, w, order[0], u);
        OpenPaymentProgress(maxAttempts, world, Arrive(maxAttempts, world, w, order[0]), order[1..], u);
      }
    }
  }

  lemma {:induction false} OwnCopyFirst(maxAttempts: nat, world: World, w: WorkerState, order: seq<Uid>, u: Uid)
    requires ValidWorld(world) && w.ledger.Some? && !IsTerminal(w.ledger.value, u)
    requires order != [] && order[0] == u
    ensures FollowsScript(maxAttempts, world.script(u), AttemptCount(w.ledger.value, u), Copies(order, u),
                          ArriveAll(maxAttempts, world, w, order).ledger.value, u)
    decreases |order|, 0
  {
    var w' := Arrive(maxAttempts, world, w, u);
    OpenCopyRuns(maxAttempts, world, w, u);
    if IsTerminal(w'.ledger.value, u) {
      TerminalIsAbsorbing(maxAttempts, world, w', order[1..], u);
    } else {
      OpenPaymentProgress(maxAttempts, world, w', order[1..], u);
    }
  }

  /** From an empty ledger, max(1,N) copies close a payment, settled or dead-lettered as its script says, with
      exactly as many attempts as that takes; and fewer than its closing attempt do not. */
  lemma EnoughCopiesClose(maxAttempts: nat, world: World, order: seq<Uid>, u: Uid)
    requires ValidWorld(world)
    ensures FollowsScript(maxAttempts, world.script(u), 0, Copies(order, u),
                          ArriveAll(maxAttempts, world, Boot(Some(EMPTY_DB)), order).ledger.value, u)
    ensures Copies(order, u) >= Budget(maxAttempts) ==>
              IsTerminal(ArriveAll(maxAttempts, world, Boot(Some(EMPTY_DB)), order).ledger.value, u)
  {
    OpenPaymentProgress(maxAttempts, world, Boot(Some(EMPTY_DB)), order, u);
  }

  /** A witness that earlier copies are not harmless: with a budget of two and a
      pipeline that always fails, one copy leaves the payment failed and a second one dead-letters it. */
  lemma EarlyCopySpendsAttempt(world: World, u: Uid)
    requires ValidWorld(world) && forall k: nat :: world.script(u)(k) == TimedOut
    ensures var one := ArriveAll(2, world, Boot(Some(EMPTY_DB)), [u]).ledger.value;
      var two := ArriveAll(2, world, Boot(Some(EMPTY_DB)), [u, u]).ledger.value;
      && u in one.jobs && one.jobs[u].status == Failed && one.jobs[u].attempts == 1
      && u in two.jobs && two.jobs[u].status == DeadLetter && two.jobs[u].attempts == 2
  {
    var w := Boot(Some(EMPTY_DB));
    TwoArrivals(2, world, w, u, u);
    ArriveForm(2, world, w, u);
    var w' := Arrive(2, world, w, u);
    ArriveForm(2, world, w', u);
    assert [u][1..] == [];
    assert ArriveAll(2, world, w, [u]) == w';
  }
}
