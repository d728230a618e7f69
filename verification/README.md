# A verified model of the quality oracle

The oracle watches an escrow program. When a seller submits a delivery for a payment that names this
oracle as its authority, the oracle fetches the agreement (SLA) and the delivery evidence, checks one
against the other, and settles the payment with a `ConfirmOracle` transaction. Jobs arrive from a live log
subscription and from a startup scan, one sequential worker consumes them, operators may request
evaluations of their own at the same time, and everything is recorded in an optional PostgreSQL ledger
that can fail at any statement.

This project models that service and proves what holds over all of its runs.

## The parts

| Files | What they model |
|---|---|
| `Types.dfy`, `Accounts.dfy` | shared values; reading payment accounts |
| `Ledger.dfy`, `LedgerHistory.dfy` | the three tables, the statements and record calls, and a ledger object that changes in place; what the tables say about the statements executed |
| `Worker.dfy`, `CleanRuns.dfy` | the worker loop with and without a ledger; closed forms of fault-free runs |
| `Bisimulation.dfy`, `Conservation.dfy`, `Confluence.dfy`, `FaultBudget.dfy` | what holds over whole job sequences |
| `Protocol.dfy`, `Safety.dfy`, `VerdictRows.dfy`, `LateBudget.dfy`, `LateBudgetTight.dfy` | chain, ledger, worker and manual evaluations as one transition system, and what holds over all of its runs |
| `Refinement.dfy`, `ManualEvaluation.dfy`, `LedgerGaps.dfy` | why worker turns and manual evaluations are runs of it; what it does not promise |
| `Fetch.dfy`, `Evaluator.dfy`, `Json.dfy`, `Fingerprint.dfy`, `Pipeline.dfy`, `Agreement.dfy` | one evaluation from eligibility to settlement, and why all evaluations of a payment agree |
| `Backfill.dfy`, `BackfillCoverage.dfy` | the startup scan, its coverage and its watermark |
| `JobSelection.dfy` | from a transaction to at most one job |
| `Limiter.dfy` | the sliding-window limiter of manual evaluations |

Code that changes state step by step is a class or a method with loops (`OracleDb`, `EvaluationWorker`,
`RateLimiter`, `EvaluateManually`, `AskMirror`, `FetchEvidence`, `RunPipeline`, `Evaluate`, `RunBatch`, `RunPage`, `Run`,
`FetchDeliveryJob`), each proved equal to a specification function; the theorems are about those functions.

## How the system is modelled

`Protocol.State` holds the delivered payments, the chain (one resolution per payment), the submitted and the
accepted transactions, the ledger, one activity for the worker and one per manual request, and the statements
that were reported as failed but may still take effect. `Step` is total: a label that is not enabled changes
nothing. So every sequence of labels is a run, and the theorems quantify over all of them: every interleaving
of the worker, any number of manual evaluations, ledger faults at every statement, pipeline timeouts whose
transaction lands later, operators who hang up, and crashes that keep only chain and ledger.

One assumption about the chain is built into `Land`: the escrow program accepts `ConfirmOracle` only for an
unresolved payment that has a delivery (src/settler.rs:154-164 relies on both halves).

Within one worker run, each ledger statement has a fate: applied, lost, applied with a lost reply, or cut off
by a crash. `FaultFree` says that no statement and no read of a run fails.

Where SHA-256 is concerned, theorems ask only that a committed hash has a single preimage (`Fetch.Binding`),
or name the collision that would be needed (`Fingerprint.HashBindsEverything`).

## Where comments or documents promise more than the code does

- The repository's README.md:164 says that the first hash-valid response wins. The code stops at the first readable 2xx body
  and fails if its hash is wrong (src/pipeline.rs:62-70). `Fetch.DocumentedExactly` says when the two agree.
- src/config.rs:32-34 says that strict mode needs a matching event. An empty event list passes
  (src/chain.rs:357-360). `JobSelection.StrictWithoutEventExactly` says exactly when that happens.
- src/chain.rs:376-378 calls duplicate jobs harmless. Copies that arrive once a payment is terminal are
  (`Confluence.LateCopiesAbsorbed`); any earlier one spends an attempt, so a copy is harmless if and only if its
  payment is terminal without it (`Confluence.ExtraCopyHarmlessIffTerminal`).
- src/chain.rs:443-446 takes everything at or below the watermark as processed. After a scan that ran out of
  budget or was cut short that need not be so: `BackfillCoverage.CoverDecidesSoundness` says when before the scan,
  `SoundExactlyToFrontier` after it, and `SkippedIsNeverRecovered` that the loss is permanent.
- src/db.rs:110-113 treats `settled` as terminal. A manual evaluation that loses the race overwrites it with
  `failed` (`LedgerGaps.SettledCanBecomeFailed`), while signature, verdict and chain stay as they are.
- A resolved payment may lack a verdict row although no ledger call failed (`LedgerGaps.ResolvedWithoutVerdict`).
  Without faults it has one if and only if some activity saw its transaction confirmed before its pipeline failed
  or timed out (`VerdictRows.VerdictIffConfirmed`); `ResolvedHasVerdictUnlessAbandoned` and `VerdictIffRecorded`
  are about all runs.
- The repository's README.md:174 says that automatic retries stop after `ORACLE_DEAD_LETTER_MAX_ATTEMPTS` worker
  attempts. Without faults and manual requests they do (`LateBudget.FaultsBoundRuns` with F = 0, `TerminalIsAbsorbingWithoutFaults`).
  But a query that hits its time limit can still execute afterwards and open a closed payment again; with that,
  each faulty run can cost five pipeline runs, and no more (`LateBudgetTight.LateBudgetIsTight`).

## Model

| member | source | states |
|---|---|---|
| Safety.SettlementsAgree | src/settler.rs:143-164 | over every run, all who record settlements of one payment, worker or operators, even at the same time, record the same transaction, the one the chain accepted |
| Safety.VerdictsMatchChain | src/db.rs:199-266 | over every run, a verdict row carries exactly the chain's approval, reason, hash and signature, and a `settled` event has a verdict row behind it |
| Safety.RecordsArePermanent | src/db.rs:290-305 | over every run and every continuation, a recorded signature, resolution hash or verdict row (apart from its check list) never changes or disappears and is the chain's, although the status may revert |
| Agreement.VerdictRowIsPermanent | src/db.rs:204-216 | with the oracle's own pipelines a verdict row never changes, check list included |
| VerdictRows.VerdictIffConfirmed | src/main.rs:192-276 | over every run without ledger faults, hang-ups and crashes, in which nobody is just recording it, a payment has its verdict row if and only if some activity saw its transaction confirmed before its pipeline failed or timed out, whether or not the chain resolved it |
| VerdictRows.ResolvedHasVerdictUnlessAbandoned | src/db.rs:199-266 | over all runs, one direction: a resolved payment without a verdict row has its transaction still held by an activity, or abandoned (its pipeline failed or timed out after sending, one of the first two statements of its record failed, its caller hung up, or the process crashed) |
| VerdictRows.VerdictIffRecorded | src/db.rs:204-246 | over all runs: the other statements of a settlement record do not matter, a verdict row is there if and only if the second one of some record took effect, at once or late |
| LateBudget.LateBudgetBound | src/main.rs:133-276 | over every run without a manual request for the payment, pipeline runs are at most max(1,N) + 2F + L: F its worker runs with a failed read, a failed statement or a crash, L the late upserts that left it open |
| LateBudget.FaultsBoundRuns | src/main.rs:133-276 | in terms of F alone, at most max(1,N) + 5F, or 1 + 4F if N is at most one |
| LateBudget.StepPays | src/main.rs:133-276 | every single step of any interleaving pays for a pipeline run out of the reserve, the fault or the late upsert that causes it |
| LateBudgetTight.LateBudgetIsTight | src/db.rs:335-348 | for every N and F some run attains both bounds at once |
| LateBudgetTight.LateStatementsExceedSequentialBound | src/db.rs:335-348 | a run with N = 1 and one faulty run has five pipeline runs, where the bound for sequential histories says three |
| LateBudget.TerminalIsAbsorbingWithoutFaults | src/db.rs:110-134 | over every interleaving in which the payment's own runs meet no fault and nobody requests it manually, whatever happens to other payments: once terminal, its row never changes and it never runs again |
| LateBudget.ClosedStaysClosed | src/db.rs:110-134 | with faults, from any closed state: it stays terminal and is not run again unless a manual request, a late upsert or a failed terminal probe happens to it |
| Safety.AttemptsMatchLog | src/db.rs:86-89 | over every run, `attempts` equals the `started` events plus the running-upserts whose event is still pending, may still execute late, or will never come |
| Safety.StepKeepsInv | src/main.rs:172-276 | every step of worker, manual evaluation, late statement, landing or crash keeps the invariant that ties verdicts, signatures and hashes to the chain |
| LedgerGaps.SettledCanBecomeFailed | src/server.rs:341-361 | a run in which no statement or read fails, comes late or is cut off takes a settled payment to `failed`, while signature, resolution hash, all verdict rows and the chain stay equal |
| LedgerGaps.ResolvedWithoutVerdict | src/main.rs:251-276 | for every budget, a run in which no statement or read fails, comes late or is cut off resolves a payment on chain after its run timed out: the worker is idle, the row failed or dead-lettered, no signature and no verdict row |
| Refinement.WorkerRunRefines | src/main.rs:121-276 | one turn of the worker loop, under any statement faults, timeout or crash, is a run of the transition system with the same ledger and other agents untouched |
| Refinement.CallRefines | src/db.rs:76-108 | a record call stopped by any fault at any statement is a run of the transition system that ends in the same tables and the same next activity |
| ManualEvaluation.EvaluateManually | src/server.rs:261-376 | in the account's fields, which requests are refused; the reply carries the outcome's approval, signature and checks; the matching counter and no other rises; the ledger is that of the specification, rejected reads change nothing, and the worker's own memory is untouched |
| ManualEvaluation.ManualRunRefines | src/server.rs:294-376 | a manual evaluation under any faults is a run of the transition system, so the safety theorems cover it |
| ManualEvaluation.ManualSpendsNoAttempt | src/server.rs:294-298 | whatever fails, a manual evaluation changes no attempt counter and no other payment's row |
| ManualEvaluation.ManualDecidesTerminality | src/server.rs:300-361 | exactly when a payment is terminal after a manual evaluation: the last upsert that took effect decides, so a terminal payment is open again unless the evaluation settles |
| Ledger.OracleDb.Execute | src/db.rs:268-383 | one statement in place is the abstract statement: merge rules, COALESCE of error, signature and hash, attempt increment only for `running`, nothing for a missing row |
| Ledger.OracleDb.RecordStatus | src/db.rs:76-108 | the call's new tables and its reply, for every fate of its two statements |
| Ledger.OracleDb.RecordSettled | src/db.rs:199-266 | the call's new tables and its reply, for every fate of its three statements |
| LedgerHistory.RowIsHistory | src/db.rs:268-305 | for every sequence of statements, a job row holds, column by column, the job and status of its last upsert, the number of upserts to `running`, and the last error, signature and hash given |
| LedgerHistory.VerdictAndLogAreHistory | src/db.rs:204-216 | likewise the verdict row holds the last verdict and the last signature given with one, and the log the events inserted while there was a row |
| Worker.EvaluationWorker.BeginInLedger | src/main.rs:133-180 | probe, three record calls and attempt number give exactly the specified start for every fate of reads and statements |
| Worker.EvaluationWorker.Begin | src/main.rs:130-188 | both bookkeeping modes decide to skip or run, and as which attempt, as the specification does |
| Worker.EvaluationWorker.Finish | src/main.rs:193-276 | settlement, retryable failure and dead-lettering leave exactly the specified ledger, memory and counters; an approved outcome raises the approved counter, a rejected one the rejected counter |
| Worker.EvaluationWorker.Run | src/main.rs:121-280 | over any queue the loop's decisions and final state are the specification's fold |
| CleanRuns.CleanProcess | src/main.rs:133-276 | a fault-free run in closed form: skipped if terminal, else one row, verdict, four events, memory and counters at once |
| Bisimulation.LedgerAndMemoryBisimilar | src/main.rs:133-157 | on every job and outcome sequence the ledger-backed and the in-memory worker take the same decisions and hold the same counters |
| Bisimulation.RunsSimilar | src/main.rs:133-276 | similarity of the two workers is kept by every fault-free sequence from any similar states |
| Bisimulation.MemoryMeaning | src/main.rs:112-157 | `processed` is exactly the settled and dead-lettered payments, disjoint from `attempts`, which counts each other payment's runs so far and stays in 1 up to the budget |
| Conservation.CountersMatchLedger | src/main.rs:214-249 | after any fault-free sequence, evaluated plus errors is the sum of all attempts, evaluated is approved plus rejected and the number of settled payments, dead letters the number of dead-lettered ones |
| Conservation.CountersMatchVerdicts | src/main.rs:214-219 | after any fault-free sequence the approved counter is the number of verdict rows that approve, the rejected counter the number of those that reject, and verdict rows belong to exactly the settled payments |
| Conservation.StatusIsLastEvent | src/db.rs:352-383 | after any fault-free sequence every row's status is the image of its last lifecycle event |
| Conservation.StatusCallKeepsLog | src/db.rs:76-108 | the same between any two record calls of a single fault-free writer |
| Conservation.SettledCallKeepsLog | src/db.rs:199-266 | the same across a settlement record |
| Confluence.MergeOrderIrrelevant | src/main.rs:121-280 | any two merges of the same copies of jobs leave the same rows, verdicts, event logs and counters |
| Confluence.ArrivalsCommute | src/main.rs:121-280 | two arrivals may be swapped in any state |
| Confluence.TerminalIsAbsorbing | src/db.rs:110-134 | whatever else arrives, a terminal payment's row, verdict and log stay |
| Confluence.LateCopiesAbsorbed | src/chain.rs:376-378 | copies of a terminal payment, mixed in anywhere, change nothing at all |
| Confluence.CopyHarmlessIffTerminal | src/chain.rs:376-378 | in any state and for any outcomes, one copy changes nothing if and only if the payment is terminal, and otherwise raises its attempts by exactly one |
| Confluence.ExtraCopyHarmlessIffTerminal | src/chain.rs:376-378 | an extra copy mixed in anywhere leaves the final state as it is if and only if the payment is terminal without it |
| Confluence.EarlyCopySpendsAttempt | src/main.rs:227-249 | a witness: a second early copy dead-letters a payment that one copy leaves failed |
| Confluence.OpenPaymentProgress | src/main.rs:172-249 | whatever else arrives, an open payment's attempts, terminality and final status follow from its outcome script and the number of copies |
| Confluence.EnoughCopiesClose | src/main.rs:227-249 | from an empty ledger max(1,N) copies leave a payment terminal, settled or dead-lettered at the first attempt that settles or at the last the budget allows |
| FaultBudget.FaultBudgetBound | src/main.rs:172-276 | over sequential histories with faults, crashes and restarts, in which each statement takes effect during its run or never, at most max(1,N) + 2F pipeline runs per payment, F its runs that met a fault |
| FaultBudget.FaultBudgetIsTight | src/main.rs:172-276 | for every N and F some such history attains that bound |
| FaultBudget.EventPays | src/main.rs:133-188 | one turn pays for its pipeline run out of the remaining budget, or out of two extra after a fault |
| FaultBudget.TerminalWithoutFaults | src/db.rs:114-134 | in such histories, without faults of its own a terminal payment never runs again and its row never changes, across restarts and other payments' faults |
| FaultBudget.RunKeepsAttempts | src/db.rs:298-299 | whatever happens to a run, attempts never fall and other payments' rows never change |
| Fetch.AskMirror | src/pipeline.rs:44-89 | the retry loop on one mirror returns the judgement of its deciding body, if any, with the specified requests and pauses |
| Fetch.FetchEvidence | src/pipeline.rs:20-105 | the loops return the judgement of the first decisive body, the specified number of requests and pauses, and raise the miss counter by one, saturating, exactly when nothing decides |
| Fetch.JudgeMeaning | src/pipeline.rs:63-73 | the document is returned exactly if the body has the committed hash and parses; otherwise a mismatch or a parse error |
| Fetch.FirstDecisiveResponse | src/pipeline.rs:42-89 | in status numbers and in both directions: the deciding body is a 2xx body, before it on its mirror only lost requests, lost bodies and 5xx, within the retries, on the first mirror that has one |
| Fetch.MirrorCost | src/pipeline.rs:44-89 | a mirror whose first other answer is its j-th costs exactly j + 1 requests and base × (2^j - 1) ms, and serves something only if that answer is a 2xx body |
| Fetch.ExhaustedCost | src/pipeline.rs:42-89 | the bounds on requests and backoff are attained when every answer uses up its attempt |
| Fetch.NothingDecides | src/pipeline.rs:91-104 | a fetch is exhausted exactly when no mirror serves a readable 2xx body |
| Fetch.RequestBound | src/pipeline.rs:42-46 | at most urls times retries requests |
| Fetch.BackoffBound | src/pipeline.rs:50-89 | total backoff at most urls × base × (2^(retries-1) - 1) ms unless a shift or product overflows |
| Fetch.MirrorOrderIrrelevant | src/pipeline.rs:62-73 | if no mirror serves a body with a wrong hash, listing the mirrors in another order gives the same result |
| Fetch.DocumentedExactly | README.md:164 | code and documentation accept the same document if and only if the deciding body has the committed hash or no served body has |
| Fetch.WrongFirstMirrorIsFatal | src/pipeline.rs:62-70 | a witness: a first mirror with another document makes the code give up where the documentation takes the second mirror |
| Json.RoundTrip | src/settler.rs:82-83 | parsing the compact text of any value gives it back, whatever follows |
| Json.PrintInjective | src/settler.rs:82-83 | two values with the same compact text are equal |
| Json.CharsRoundTrip | src/settler.rs:82-83 | string escaping as in section 7 of RFC 8259 is undone by reading, for all strings |
| Fingerprint.PreimageBindsEverything | src/settler.rs:70-83 | equal preimages mean equal payment uid and key, both hashes, version, optional profile id, approval, reason code and ordered check list, for arbitrary strings in checks |
| Fingerprint.PreimageReadsBack | src/settler.rs:70-83 | reading the hashed text back as JSON gives one object with distinct keys that names the approval, reason code, ordered checks, payment, both hashes as hex text, version and profile id |
| Fingerprint.HexRoundTrips | src/settler.rs:72-75 | hex text, high digit first, reads back to the bytes it stands for |
| Fingerprint.HashBindsEverything | src/settler.rs:65-88 | equal resolution hashes mean the same, or the two preimages are a digest collision |
| Evaluator.Evaluate | src/evaluator.rs:56-204 | approval, reason and the complete ordered check list for every document in both modes |
| Evaluator.Conclude | src/evaluator.rs:171-197 | the string dispatch over the first failing check gives the verdict of the typed battery |
| Evaluator.EvaluatorIsNormative | spec/api-quality-v1/NORMATIVE.md:108-123 | for version-1 documents in the default mode, verdict and reason are the specification's ordered conjunction, each row written out on the document's and the evidence's fields |
| Evaluator.PartsReport | src/evaluator.rs:61-169 | which checks are made, under which names, and exactly when each passes |
| Evaluator.FieldCheckAt | src/evaluator.rs:116-131 | one check per required field, in order, named after it, passed if and only if the body is an object with that key |
| Evaluator.BatteryVerdict | src/evaluator.rs:63-197 | the same for all versions and strict mode: the battery's first failure is the adjudication |
| Evaluator.StrictDiffersExactly | src/evaluator.rs:64-93 | strict mode changes the verdict exactly for version-1 documents without a profile id, which it rejects |
| Evaluator.ReasonIffRejected | src/evaluator.rs:171-197 | reason `None` exactly when approved, and approved exactly when every check passed |
| Pipeline.RunPipeline | src/pipeline.rs:112-195 | what is sent, its verdict, checks and hash, the outcome, the stage blamed for each failure, and the miss counter, for every combination of answers; nothing is sent unless the account is ours, delivered, unresolved and unexpired |
| Pipeline.SettlesExactly | src/pipeline.rs:120-142 | a run gets to settlement if and only if the account's fields allow it and both documents, with the committed hashes, are what the mirrors serve first |
| Pipeline.MissesExactly | src/pipeline.rs:91-95 | exactly when the miss counter rises: nobody serves the SLA, or nobody the evidence once the SLA is there |
| Pipeline.EligibleIffStillAJob | src/settler.rs:130-180 | the re-check agrees with the independent reader of accounts: still readable as a job, and not expired |
| Pipeline.SettlesCommittedBytes | src/pipeline.rs:128-151 | what reaches settlement is the evaluation of the bytes whose hashes are on chain |
| Pipeline.DocumentsAreDeterministic | src/pipeline.rs:128-142 | two runs for one commitment that both get to evaluate parse the same two documents, whatever the mirrors returned, in whatever order, over whatever retries |
| Pipeline.SettlementIsDeterministic | src/pipeline.rs:112-151 | and so bring the same result, ordered checks and resolution hash to settlement |
| Agreement.ChainVerdictIsUnique | src/pipeline.rs:120-188 | any two runs of the whole system that resolve a payment resolve it with the same approval, reason and hash |
| Agreement.VerdictRowIsCommitted | src/db.rs:199-266 | in every run a verdict row, checks included, is the evaluation of the committed bytes, and its hash is the chain's |
| Agreement.StepFaithful | src/pipeline.rs:169-188 | every step keeps chain candidates, rows, calls in progress and late statements to what some pipeline run produced |
| Agreement.WorkerTurnFaithful | src/main.rs:121-276 | a turn of the worker loop under any faults, whose pipeline is this oracle's, is such a run to the same ledger |
| Agreement.ManualTurnFaithful | src/server.rs:294-376 | so is a manual evaluation |
| Backfill.RunBatch | src/chain.rs:438-480 | the inner loop over one page is the specified walk, early exits included |
| Backfill.RunPage | src/chain.rs:403-484 | one turn of the outer loop, with every exit, is one turn of the specified scan |
| Backfill.Run | src/chain.rs:403-485 | the scan loop is the specified scan, and terminates because the remaining budget shrinks |
| Backfill.WalkScans | src/chain.rs:438-439 | a page is paid for by exactly its examined entries |
| BackfillCoverage.HandedInOwnFields | src/chain.rs:438-480 | in the entries' own fields: among the entries dealt with exactly the successful, well-formed ones are handed on, in history order, all of them above the old watermark, and the jobs emitted are those their transactions yield |
| BackfillCoverage.ScanCoverage | src/chain.rs:403-485 | no gap: each successful entry of the examined prefix is handed on exactly once and in order, its jobs are emitted in order, only failed or unparsable entries are re-read, and `scanned` never exceeds `max` |
| BackfillCoverage.PageKeepsNoGap | src/chain.rs:438-484 | the loop invariant behind it, across a page: everything between cursor and frontier is skippable |
| BackfillCoverage.BudgetCoverage | src/chain.rs:404-407 | a scan that spends its budget covers the newest `max` entries if and only if no full page before the last ends in a failed entry |
| BackfillCoverage.FailedPageBlocksScan | src/chain.rs:449-456 | a newest page of failed entries is re-read until the budget is spent: nothing behind it is ever reached |
| BackfillCoverage.WatermarkIsMaximum | src/chain.rs:440-443 | the new watermark is the maximum of the old one and every slot examined |
| BackfillCoverage.WatermarkSoundAtEnd | src/chain.rs:434-447 | after an empty page, a short page or the old watermark, everything usable between the two watermarks was handed on |
| BackfillCoverage.SoundExactlyToFrontier | src/chain.rs:427-470 | however the scan stops, exactly when its watermark can be trusted |
| BackfillCoverage.CoverDecidesSoundness | src/chain.rs:403-485 | when page requests are answered and the channel stays open, the watermark can be trusted if and only if no usable entry beyond what the budget covers lies above the old one; the cover follows from the history's skippable entries alone |
| BackfillCoverage.BudgetDecidesSoundness | src/chain.rs:404-407 | in particular, if no full page before the last ends in a skippable entry: if and only if no usable entry beyond the newest `max` lies above the old watermark |
| BackfillCoverage.BeyondBudgetIsUnsound | src/chain.rs:404-407 | whatever fails or is cut short after the first page, a usable entry beyond the newest `max` above the old watermark makes the new one unsound |
| BackfillCoverage.SkippedIsNeverRecovered | src/chain.rs:444-447 | what an unsound watermark skipped is handed on by no later scan from it |
| JobSelection.FetchDeliveryJob | src/chain.rs:260-355 | the two candidate loops give the specified selection |
| JobSelection.InstructionOrderIrrelevant | src/chain.rs:301-319 | permuting instructions and inner groups, or repeating them, does not change the job |
| JobSelection.StrictUnique | src/chain.rs:318-319 | sorting by text and removing neighbours gives one list per set of keys |
| JobSelection.BeforeMeaning | src/chain.rs:318 | the order of keys is lexicographic: by the first character that differs, or by being a proper prefix |
| JobSelection.SelectedIsOurs | src/chain.rs:139-159 | an emitted job comes from an account of the transaction that is ours, delivered and unresolved, carries that account's fields, and matches an event unless there is none |
| JobSelection.OnlyFirstDeliveryEmitted | src/chain.rs:321-332 | of several deliveries in one transaction only the first in key order is emitted |
| JobSelection.StrictSelectsExactly | src/chain.rs:51-89 | strict mode yields a job if and only if some instruction of the escrow program starts with the SubmitDelivery discriminant and names, as its fifth account, a payment that is ours, pending, and matched by an event or by the absence of events |
| JobSelection.DefaultSelectsExactly | src/chain.rs:339-352 | the default mode also yields one if no submission qualifies but some account key does, and then that of the first such key |
| JobSelection.StrictAgreesWithDefault | src/chain.rs:334-352 | whenever strict mode yields a job the default mode yields the same one |
| JobSelection.StrictWithoutEventExactly | src/chain.rs:357-360 | strict mode emits without a matching event if and only if there are no events and a delivered account is pending |
| JobSelection.StrictEmitsWithoutEvent | src/chain.rs:321-332 | a witness: one SubmitDelivery instruction for a pending payment and an empty event list |
| Limiter.RateLimiter.constructor | src/server.rs:409-410 | the window is the configured one, and one millisecond if that is zero |
| Limiter.RateLimiter.Authorize | src/server.rs:408-422 | the deque after pruning and admitting is the specified one |
| Limiter.LimiterRefinesHistory | src/server.rs:411-422 | for non-decreasing times the pruned deque answers exactly as counting the full admission history |
| Limiter.HistoryAdmitsIffRoom | src/server.rs:411-420 | that reference admits a request if and only if fewer than `limit` admissions lie at most one window before it |
| Limiter.AtMostLimitPerWindow | src/server.rs:418-422 | for requests processed in order, no closed window contains more than `limit` of the deque's own admissions |
| Limiter.ShortenedWindowsWithinLimit | src/server.rs:408-422 | if no request is processed more than d out of order, no window shortened by d contains more than `limit` admissions |
| Limiter.ShorteningIsTight | src/server.rs:408-411 | for every window, d and limit of at least two, a window one unit longer can contain more |
| Limiter.PopsWithinPushes | src/server.rs:411-422 | over any requests, pops never exceed pushes, their difference is the deque's length, and that never exceeds the limit |
| Limiter.DequeStaysSorted | src/server.rs:411-422 | for requests processed in order the deque stays sorted |
| Limiter.OutOfOrderRequestsDiverge | src/server.rs:408-411 | with requests processed out of order the deque errs in both directions |

## Left out

- Timestamps, JSON payloads of events, SQL text, connection pooling, TLS and query time limits: statements are
  atomic effects with a fate.
- The order of lifecycle events of different payments in the shared table: events are kept per payment.
- Ledger columns are unbounded: 32-bit overflow of `attempts` is not modelled.
- The worker's own watermark write (src/main.rs:210-212, src/chain.rs:510-517) and reconnects without a backfill
  (src/chain.rs:234-256): the code does not provide that no delivery is ever missed across restarts, and no such
  theorem is stated.
- The live subscription, signing, blockhashes, commitment levels and the clock: nondeterministic answers. In
  `Protocol` expiry is a choice: an eligible payment may always be found ineligible.
- `read_payment` and `is_eligible` read one given account each; in `JobSelection` all reads of one selection see
  the same snapshot. `Pubkey` stands for its base58 text; one payment account belongs to one payment uid.
- Transactions whose message is not parsed and those whose encoding is not JSON are one case, as both yield no job.
  In `JobSelection.FetchDeliveryJob` the RPC failure of fetching the transaction itself is left to its caller, which
  skips it (`Backfill.Fetched.FetchFailed`).
- SHA-256, UTF-8, JSON Schema validation, and base58, base64, hex and JSON decoding of documents are functions given
  from outside. The numeric codes of resolution reasons are defined in a crate that is not part of this model.
- The key order of the hashed JSON document is taken to be sorted, as `serde_json` keeps it by default.
- Backoff that overflows wraps, as in a build without overflow checks; a checked build would panic instead.
- Texts of errors and logs are kept only where a ledger row stores them; an exhausted fetch keeps its last error,
  which `Pipeline.RunPipeline` drops.
- FaultBudget.FaultBudgetBound: statements that execute after their run has ended are not part of its histories;
  `LateBudget` has the bounds with them.
- LateBudget.FaultsBoundRuns: a manual request for the payment lifts the bound, as it opens a closed payment again
  (`ManualEvaluation.ManualDecidesTerminality`) without being a run of the worker.
- Worker.EvaluationWorker.Run: the methods of the class cover runs the process survives; crashes are in
  `Worker.Process` and `Protocol.CrashAll`, where the object no longer exists.
- Counters are not part of `Protocol.State`; `Conservation` is about runs without manual evaluations.
- Agreement.ChainVerdictIsUnique: that agents submit only what a pipeline run produced is a hypothesis on the run
  (`Faithful`). It is what `Pipeline.RunPipeline` hands to settlement, and turns of worker and operators meet it
  (`WorkerTurnFaithful`, `ManualTurnFaithful`); interleavings of several turns are covered by the hypothesis only.
- Request routing, operator tokens, CORS, health and metrics output, configuration parsing and the draft v2 profile:
  plumbing that would only add easy members.
