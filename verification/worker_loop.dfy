/**
 * One turn of the durable worker: claim a job, let its handler run while others go on,
 * then report what came of it (recorder_next/features.py:3702-3775).
 */
module WorkerLoop {
  import opened Wrappers
  import opened WorkerLedger
  import opened WorkerInvariant
  import opened WorkerRuns
  import opened WorkerSweeps
  import opened WorkerHistory
  import opened WorkerStore

  /** How a handler ends: it finds its lease gone, raises, returns no receipt, or returns one. */
  datatype Handled =
    | GaveUp
    | Raised(kind: string, retryable: bool)
    | NoReceipt
    | Returned(receipt: Receipt)

  function Failing(c: Claim, kind: string, retryable: bool, now: int): Step {
    Fail(c, kind, retryable, None, now)
  }

  /** The report. A receipt that is refused is reported as a failure, after whatever others did `between`. */
  function Report(w: World, c: Claim, h: Handled, now: int, between: seq<Step>, later: int): World {
    match h
    case GaveUp => w
    case Raised(kind, retryable) => Next(w, Failing(c, kind, retryable, now))
    case NoReceipt => Next(w, Failing(c, "missing_effect_receipt", false, now))
    case Returned(receipt) =>
      var done := CompleteJob(w, c, receipt, now);
      if done.Err? && (done.error == Invalid || done.error == Conflict)
      then Next(Run(w, between), Failing(c, "invalid_effect_receipt", false, later))
      else Next(w, Complete(c, receipt, now))
  }

  /** The ledger stays sound, and jobs only move forward, whatever the handler does. */
  lemma ReportKeeps(w: World, c: Claim, h: Handled, now: int, between: seq<Step>, later: int)
    requires Inv(w)
    ensures Inv(Report(w, c, h, now, between, later)) && Evolves(w, Report(w, c, h, now, between, later))
  {
    match h
    case GaveUp => SameLedger(w, w);
    case Raised(kind, retryable) => StepKeeps(w, Failing(c, kind, retryable, now));
    case NoReceipt => StepKeeps(w, Failing(c, "missing_effect_receipt", false, now));
    case Returned(receipt) =>
      StepKeeps(w, Complete(c, receipt, now));
      LateFailureKeeps(w, c, between, later);
  }

  lemma LateFailureKeeps(w: World, c: Claim, between: seq<Step>, later: int)
    requires Inv(w)
    ensures var v := Next(Run(w, between), Failing(c, "invalid_effect_receipt", false, later));
            Inv(v) && Evolves(w, v)
  {
    var u, s := Run(w, between), Failing(c, "invalid_effect_receipt", false, later);
    RunKeeps(w, between);
    StepKeeps(u, s);
    EvolvesTransitive(w, u, Next(u, s));
  }

  /**
   * A worker that lost its claim while its handler ran changes nothing when it reports,
   * however the handler ended and whatever receipt it returns.
   */
  lemma LateWorkerIsHarmless(start: World, others: seq<Step>, c: Claim, n: nat, h: Handled, now: int,
                             between: seq<Step>, later: int)
    requires Inv(start) && c.token == Issued(c.job, n) && Stale(Run(start, others), c.job, n)
    ensures var w := Run(start, others);
            Report(w, c, h, now, between, later) in {w, Run(w, between)}
  {
    var w := Run(start, others);
    RunKeeps(start, others);
    match h
    case GaveUp =>
    case Raised(kind, retryable) => StaleIsPowerless(w, c.job, n, Failing(c, kind, retryable, now));
    case NoReceipt => StaleIsPowerless(w, c.job, n, Failing(c, "missing_effect_receipt", false, now));
    case Returned(receipt) =>
      StaleIsPowerless(w, c.job, n, Complete(c, receipt, now));
      FencedForever(w, between, c.job, n, Failing(c, "invalid_effect_receipt", false, later));
  }

  /** The report ends the job: no receipt that binds, and no retry left. */
  predicate Ends(job: Job, id: JobId, h: Handled) {
    match h
    case GaveUp => false
    case Raised(_, retryable) => !(retryable && job.attemptCount < job.maxAttempts)
    case NoReceipt => true
    case Returned(receipt) => BindReceipt(id, job, receipt).Err?
  }

  /**
   * What a report does to a job under a live claim before its deadline. A report that
   * should end the job fails to, and changes nothing, exactly when the history key of
   * the job's submission is held by another job.
   */
  lemma ReportOfLiveClaim(w: World, c: Claim, h: Handled, now: int)
    requires Inv(w) && Live(w, c, now) && !Reached(w.jobs[c.job].deadline, now)
    ensures var v := Report(w, c, h, now, [], now);
            var job := w.jobs[c.job];
            && c.job in v.jobs
            && (h.GaveUp? ==> v == w)
            && (h.Returned? && BindReceipt(c.job, job, h.receipt).Ok? ==>
                  && v.jobs[c.job].status == Succeeded
                  && v.jobs[c.job].receipt == Some(BindReceipt(c.job, job, h.receipt).value))
            && (h.Raised? && h.retryable && job.attemptCount < job.maxAttempts ==>
                  v.jobs[c.job].status == RetryWait && v.jobs[c.job].lastError == Some(h.kind))
            && (Ends(job, c.job, h) ==> EndsUnlessTaken(w, c.job, v))
  {
    assert JobInv(w, c.job);
    match h
    case GaveUp =>
    case Raised(kind, retryable) => FailOfLiveClaim(w, c, kind, retryable, now);
    case NoReceipt => FailOfLiveClaim(w, c, "missing_effect_receipt", false, now);
    case Returned(receipt) => ReceiptOfLiveClaim(w, c, receipt, now);
  }

  /** The job has ended in `v`, except that nothing has changed where its history key is taken. */
  ghost predicate EndsUnlessTaken(w: World, id: JobId, v: World) {
    id in w.jobs && id in v.jobs &&
    (v == w <==> HistoryTaken(w, w.jobs[id])) && (v != w ==> v.jobs[id].status == FailedPermanent)
  }

  lemma ReceiptOfLiveClaim(w: World, c: Claim, receipt: Receipt, now: int)
    requires Inv(w) && Live(w, c, now) && !Reached(w.jobs[c.job].deadline, now)
    ensures var v := Report(w, c, Returned(receipt), now, [], now);
            var bound := BindReceipt(c.job, w.jobs[c.job], receipt);
            && c.job in v.jobs
            && (bound.Ok? ==> v.jobs[c.job].status == Succeeded && v.jobs[c.job].receipt == Some(bound.value))
            && (bound.Err? ==> EndsUnlessTaken(w, c.job, v))
  {
    CompleteOfLiveClaim(w, c, receipt, now);
    if BindReceipt(c.job, w.jobs[c.job], receipt).Err? {
      FailOfLiveClaim(w, c, "invalid_effect_receipt", false, now);
    }
  }

  lemma CompleteOfLiveClaim(w: World, c: Claim, receipt: Receipt, now: int)
    requires Live(w, c, now) && !Reached(w.jobs[c.job].deadline, now)
    ensures var bound := BindReceipt(c.job, w.jobs[c.job], receipt);
            var done := CompleteJob(w, c, receipt, now);
            if bound.Err? then done == Err(bound.error) && bound.error in {Conflict, Invalid}
            else
              && done.Ok? && c.job in done.value.jobs
              && done.value.jobs[c.job].status == Succeeded && done.value.jobs[c.job].receipt == Some(bound.value)
  {
  }

  lemma FailOfLiveClaim(w: World, c: Claim, kind: string, retryable: bool, now: int)
    requires Live(w, c, now) && !Reached(w.jobs[c.job].deadline, now)
    ensures var v := Next(w, Failing(c, kind, retryable, now));
            var job := w.jobs[c.job];
            && c.job in v.jobs
            && (retryable && job.attemptCount < job.maxAttempts ==>
                  v.jobs[c.job].status == RetryWait && v.jobs[c.job].lastError == Some(kind))
            && (!(retryable && job.attemptCount < job.maxAttempts) ==> EndsUnlessTaken(w, c.job, v))
  {
    var job := w.jobs[c.job];
    if !(retryable && job.attemptCount < job.maxAttempts) {
      var row := FailedRow(job, kind, now).(nextAttempt := now);
      EndOfRow(w, c.job, row, kind, now);
    }
  }

  lemma EndOfRow(w: World, id: JobId, row: Job, kind: string, now: int)
    requires id in w.jobs && SameRequest(w.jobs[id], row) && row.status == FailedPermanent
    ensures var n := w.jobs[id].attemptCount;
            var u := FinishAttempt(w.(jobs := w.jobs[id := row]), id, n, Lost, Some(kind), None, now);
            var r := ProjectTerminal(u, w.jobs[id], now);
            && (r.Err? <==> HistoryTaken(w, w.jobs[id]))
            && (r.Ok? ==> id in r.value.jobs && r.value.jobs[id] == row)
  {
    var u := FinishAttempt(w.(jobs := w.jobs[id := row]), id, w.jobs[id].attemptCount, Lost, Some(kind), None, now);
    assert u.jobs.Keys == w.jobs.Keys;
    TakenFrame(w, u, w.jobs[id]);
    ProjectionRaises(u, w.jobs[id], now);
    var r := ProjectTerminal(u, w.jobs[id], now);
    if r.Ok? {
      ProjectionDoes(u, w.jobs[id], now, r.value);
    }
  }

  /** As long as nothing else is enqueued under history keys, every ending report ends its job. */
  lemma EndingReportsEnd(start: World, steps: seq<Step>, w: World, c: Claim, h: Handled, now: int)
    requires start.jobs == map[] && start.attempts == map[]
    requires DistinctSubmissions(start.ingress) && OrderlyRun(start, steps) && w == Run(start, steps)
    requires Live(w, c, now) && !Reached(w.jobs[c.job].deadline, now) && Ends(w.jobs[c.job], c.job, h)
    ensures var v := Report(w, c, h, now, [], now); c.job in v.jobs && v.jobs[c.job].status == FailedPermanent
  {
    RunKeeps(start, steps);
    RunKeepsHistory(start, steps);
    NothingTaken(w, w.jobs[c.job]);
    ReportOfLiveClaim(w, c, h, now);
  }

  const CLASH_ROWS := ClaimRows([], [], [], Some("job"))
  const CLASH_CLAIM := Claim("job", "worker", Issued("job", 1))

  lemma ClashRows()
    ensures RowsOf(CLASH_ROWS, Run(EMPTY, CLASH), 0)
    ensures ClaimJob(Run(EMPTY, CLASH), "worker", 30, CLASH_ROWS, 0) ==
            Ok(Take(Run(EMPTY, CLASH), "job", "worker", 30, 0))
  {
    ClashState();
    var w := Run(EMPTY, CLASH);
    assert forall id | id in w.jobs :: id in w.jobs.Keys;
    assert SweepAll(w, ByDeadline, [], 0) == Ok(w);
  }

  /** Where another job holds the history key, a permanent failure reported by the live worker changes nothing. */
  lemma ReportClash(kind: string)
    ensures var w := Run(EMPTY, CLASH + [ClaimStep("worker", 30, CLASH_ROWS, 0)]);
            && Live(w, CLASH_CLAIM, 1) && !Reached(w.jobs["job"].deadline, 1)
            && Report(w, CLASH_CLAIM, Raised(kind, false), 1, [], 1) == w
  {
    var u := Run(EMPTY, CLASH);
    var steps := CLASH + [ClaimStep("worker", 30, CLASH_ROWS, 0)];
    assert steps[..|steps| - 1] == CLASH;
    ClashState();
    ClashRows();
    RunKeeps(EMPTY, steps);
    var w := Run(EMPTY, steps);
    assert w == Take(u, "job", "worker", 30, 0);
    ClashTaken(u, w);
    ReportOfLiveClaim(w, CLASH_CLAIM, Raised(kind, false), 1);
  }

  lemma ClashTaken(u: World, w: World)
    requires "job" in u.jobs && u.jobs["job"].attemptCount == 0 && w == Take(u, "job", "worker", 30, 0)
    requires u.jobs["job"].deadline == Some(5) && HistoryTaken(u, u.jobs["job"])
    ensures Live(w, CLASH_CLAIM, 1) && !Reached(w.jobs["job"].deadline, 1) && HistoryTaken(w, w.jobs["job"])
  {
    assert w.jobs.Keys == u.jobs.Keys;
    TakenFrame(u, w, u.jobs["job"]);
  }

  /** A report that succeeds a job carried a receipt, and succeeded it before its lease end and deadline. */
  lemma OnlyReceiptsSucceed(w: World, c: Claim, h: Handled, now: int, id: JobId)
    requires Inv(w) && id in w.jobs && w.jobs[id].status != Succeeded
    requires id in Report(w, c, h, now, [], now).jobs && Report(w, c, h, now, [], now).jobs[id].status == Succeeded
    ensures h.Returned? && id == c.job && Live(w, c, now) && !Reached(w.jobs[id].deadline, now)
  {
    match h
    case GaveUp =>
    case Raised(kind, retryable) => HowJobsSucceed(w, Failing(c, kind, retryable, now), id);
    case NoReceipt => HowJobsSucceed(w, Failing(c, "missing_effect_receipt", false, now), id);
    case Returned(receipt) =>
      var done := CompleteJob(w, c, receipt, now);
      if done.Err? && (done.error == Invalid || done.error == Conflict) {
        HowJobsSucceed(w, Failing(c, "invalid_effect_receipt", false, now), id);
      } else {
        HowJobsSucceed(w, Complete(c, receipt, now), id);
      }
  }

  // ---- the worker ---------------------------------------------------------------------

  /** The reporting half of a turn, on a store nobody else touches meanwhile. */
  method ReportResult(store: Store, c: Claim, h: Handled, now: int)
    modifies store
    ensures store.tables == Report(old(store.tables), c, h, now, [], now)
    ensures old(Inv(store.tables)) ==> Inv(store.tables)
  {
    match h {
      case GaveUp =>
      case Raised(kind, retryable) =>
        ReportFailure(store, c, kind, retryable, now);
      case NoReceipt =>
        ReportFailure(store, c, "missing_effect_receipt", false, now);
      case Returned(receipt) =>
        ReportReceipt(store, c, receipt, now);
    }
  }

  lemma FailureIsNext(w: World, c: Claim, kind: string, retryable: bool, now: int, v: World, r: Result<(), Error>)
    requires Settled(w, FailJob(w, c, kind, retryable, None, now), v, r)
    ensures v == Next(w, Failing(c, kind, retryable, now))
  {
  }

  method ReportFailure(store: Store, c: Claim, kind: string, retryable: bool, now: int)
    modifies store
    ensures store.tables == Next(old(store.tables), Failing(c, kind, retryable, now))
    ensures old(Inv(store.tables)) ==> Inv(store.tables)
  {
    ghost var before := store.tables;
    var r := store.FailWorkerJob(c, kind, retryable, None, now);
    FailureIsNext(before, c, kind, retryable, now, store.tables, r);
  }

  lemma ReceiptIsReport(w: World, c: Claim, receipt: Receipt, now: int, u: World, done: Result<(), Error>, v: World)
    requires Settled(w, CompleteJob(w, c, receipt, now), u, done)
    requires v == if done.Err? && (done.error == Invalid || done.error == Conflict)
                  then Next(u, Failing(c, "invalid_effect_receipt", false, now)) else u
    ensures v == Report(w, c, Returned(receipt), now, [], now)
  {
  }

  method ReportReceipt(store: Store, c: Claim, receipt: Receipt, now: int)
    modifies store
    ensures store.tables == Report(old(store.tables), c, Returned(receipt), now, [], now)
    ensures old(Inv(store.tables)) ==> Inv(store.tables)
  {
    ghost var before := store.tables;
    var done := store.CompleteWorkerJob(c, receipt, now);
    ghost var after := store.tables;
    if done.Err? && (done.error == Invalid || done.error == Conflict) {
      ReportFailure(store, c, "invalid_effect_receipt", false, now);
    }
    ReceiptIsReport(before, c, receipt, now, after, done, store.tables);
  }

  /** A whole turn; `handlers` says how the handler of a job's kind or stage would end, if there is one. */
  method RunOnce(store: Store, owner: string, lease: int, handlers: map<string, Handled>, now: int)
    returns (worked: bool, ghost rows: ClaimRows)
    modifies store
    ensures RowsOf(rows, old(store.tables), now)
    ensures var claimed := Next(old(store.tables), ClaimStep(owner, lease, rows, now));
            if !worked then store.tables == claimed
            else
              && rows.pick.Some? && rows.pick.value in claimed.jobs
              && var id := rows.pick.value;
                 var job := claimed.jobs[id];
                 var claim := Claim(id, owner, Issued(id, job.attemptCount));
                 store.tables == Report(claimed, claim, HandlerOf(handlers, job), now, [], now)
    ensures old(Inv(store.tables)) ==> Inv(store.tables)
  {
    var picked;
    picked, rows := store.ClaimWorkerJob(owner, lease, now);
    if picked.Err? || picked.value.None? {
      return false, rows;
    }
    var id := picked.value.value;
    var job := store.tables.jobs[id];
    ReportResult(store, Claim(id, owner, Issued(id, job.attemptCount)), HandlerOf(handlers, job), now);
    worked := true;
  }

  function HandlerOf(handlers: map<string, Handled>, job: Job): Handled {
    if job.kind in handlers then handlers[job.kind]
    else if job.stage in handlers then handlers[job.stage]
    else Raised("no_handler", false)
  }
}
