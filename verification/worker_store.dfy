/**
 * The worker operations as the store runs them: each opens a transaction on a
 * working copy of the tables, walks the rows its queries return, and either
 * commits the copy or raises and commits nothing.
 */
module WorkerStore {
  import opened Wrappers
  import opened WorkerLedger
  import opened WorkerInvariant
  import opened WorkerSweeps
  import opened WorkerOutcomes
  import opened WorkerConsequences

  // ---- statements inside a transaction ----------------------------------------------

  method InsertJob(w: World, id: JobId, s: Spec, now: int) returns (r: Result<World, Error>)
    ensures r == EnqueueTx(w, id, s, now)
  {
    if id in w.jobs {
      var e := w.jobs[id];
      var same := e.payload == s.payload && e.kind == s.kind && e.stage == s.stage && e.chain == s.chain;
      return if same then Ok(w) else Err(Conflict);
    }
    var row := Job(s.kind, s.stage, s.payload, s.chain, s.deadline, Pending, None, None, None,
                   s.nextAttempt, 0, s.maxAttempts, None, None, now, None);
    r := Ok(w.(jobs := w.jobs[id := row]));
  }

  method Project(w: World, job: Job, now: int) returns (r: Result<World, Error>)
    ensures r == ProjectTerminal(w, job, now)
  {
    var p := job.payload;
    if job.stage == "tts" {
      return Ok(ProjectArtifact(w, p));
    }
    if job.kind == "eavesdrop" || (p.segment.Some? && p.sessionId.Some?) {
      return Ok(ProjectDecision(w, p));
    }
    if p.turnId.None? || p.turnId.value !in w.turns || w.turns[p.turnId.value].finalOutcome.Some?
       || job.kind == HISTORY_KIND {
      return Ok(w);
    }
    var t := p.turnId.value;
    if job.stage != "hermes" {
      var outcome := if job.stage == "asr" then "asr" else "routing";
      return Ok(w.(turns := w.turns[t := Turn(Some(outcome))]));
    }
    var v := w.(turns := w.turns[t := Turn(Some("hermes"))]);
    if t !in v.ingress {
      return Ok(v);
    }
    var i := v.ingress[t];
    v := v.(ingress := v.ingress[t := i.(failed := true)]);
    r := InsertJob(v, HistoryKey(i.submission), HistorySpec(t, i, now), now);
  }

  method EndJob(w: World, id: JobId, error: string, now: int) returns (r: Result<World, Error>)
    requires id in w.jobs
    ensures r == Terminalise(w, id, error, now)
  {
    var job := w.jobs[id];
    var v := w.(jobs := w.jobs[id := FailedRow(job, error, now)]);
    v := v.(attempts := CloseRunning(v.attempts, id, Lost, Some(error), now));
    r := Project(v, job, now);
  }

  /** The fence every durable worker effect passes. */
  method CheckEffect(w: World, c: Claim, stage: Option<string>, turn: Option<string>, now: int)
    returns (r: Result<(World, bool), Error>)
    ensures r == AssertEffect(w, c, stage, turn, now)
  {
    if c.job !in w.jobs {
      return Err(NotFound);
    }
    var job := w.jobs[c.job];
    if !Live(w, c, now) || (stage.Some? && stage.value != job.stage) || (turn.Some? && turn != job.payload.turnId) {
      return Err(LeaseConflict);
    }
    if !Reached(job.deadline, now) {
      return Ok((w, true));
    }
    var ended := EndJob(w, c.job, "deadline", now);
    r := if ended.Ok? then Ok((ended.value, false)) else Err(ended.error);
  }

  /** One of the three sweeps that open a claim. */
  method SweepRows(w: World, sweep: Sweep, now: int) returns (r: Result<World, Error>, ghost order: seq<JobId>)
    ensures Lists(order, w, sweep, now)
    ensures r == SweepAll(w, sweep, order, now)
  {
    var rest := set id | id in w.jobs && Selected(w, sweep, w.jobs[id], now);
    ghost var selected := rest;
    order := [];
    r := Ok(w);
    while rest != {}
      invariant Visited(order, selected, rest)
      invariant r == SweepAll(w, sweep, order, now)
      decreases rest
    {
      var id :| id in rest;
      VisitNext(order, selected, rest, id);
      SweepLast(w, sweep, order, id, now);
      rest := rest - {id};
      order := order + [id];
      if r.Ok? {
        r := SweepRow(r.value, sweep, id, now);
      }
    }
  }

  method SweepRow(w: World, sweep: Sweep, id: JobId, now: int) returns (r: Result<World, Error>)
    ensures r == SweepOne(w, sweep, id, now)
  {
    r := Ok(w);
    if id in w.jobs && Guarded(sweep, w.jobs[id], now) {
      r := EndJob(w, id, sweep.ErrorKind(), now);
    }
  }

  /** The row the claim's ordered query returns first. */
  method PickRow(w: World, now: int) returns (pick: Option<JobId>)
    ensures FirstEligible(w, pick, now)
  {
    var eligible := set id | id in w.jobs && Eligible(w.jobs[id], now);
    var rest := eligible;
    pick := None;
    while rest != {}
      invariant rest <= eligible
      invariant pick.None? ==> rest == eligible
      invariant pick.Some? ==>
                  && pick.value in eligible
                  && forall id | id in eligible && id !in rest :: Before(w.jobs[pick.value], w.jobs[id])
      decreases rest
    {
      var id :| id in rest;
      rest := rest - {id};
      if pick.None? || !Before(w.jobs[pick.value], w.jobs[id]) {
        pick := Some(id);
      }
    }
    assert forall id | id in w.jobs && Eligible(w.jobs[id], now) :: id in eligible;
  }

  method TakeRow(w: World, id: JobId, owner: string, lease: int, now: int) returns (v: World)
    requires id in w.jobs
    ensures v == Take(w, id, owner, lease, now)
  {
    var job := w.jobs[id];
    var n := job.attemptCount + 1;
    var token := Issued(id, n);
    v := w.(jobs := w.jobs[id := job.(status := Claimed, owner := Some(owner), token := Some(token),
                                      leaseExpires := Some(PlusSeconds(now, lease)), attemptCount := n)]);
    if job.status == Claimed {
      v := v.(attempts := CloseRunning(v.attempts, id, Reclaimed, None, now));
    }
    v := v.(attempts := v.attempts[(id, n) := Attempt(owner, token, job.stage, now, None, Running, None, None)]);
  }

  method RenewRow(w: World, c: Claim, lease: int, now: int) returns (r: Result<(World, bool), Error>)
    ensures r == RenewLease(w, c, lease, now)
  {
    if !Holds(w, c) {
      return Ok((w, false));
    }
    var job := w.jobs[c.job];
    if Reached(job.deadline, now) {
      var ended := EndJob(w, c.job, "deadline", now);
      return if ended.Ok? then Ok((ended.value, false)) else Err(ended.error);
    }
    if job.leaseExpires.None? || job.leaseExpires.value <= now {
      return Ok((w, false));
    }
    var expires := PlusSeconds(now, lease);
    if job.deadline.Some? && expires > job.deadline.value {
      expires := job.deadline.value;
    }
    r := Ok((w.(jobs := w.jobs[c.job := job.(leaseExpires := Some(expires))]), true));
  }

  method CompleteRow(w: World, c: Claim, receipt: Receipt, now: int) returns (r: Result<World, Error>)
    ensures r == CompleteJob(w, c, receipt, now)
  {
    if c.job !in w.jobs {
      return Err(NotFound);
    }
    var job := w.jobs[c.job];
    var bound := BindReceipt(c.job, job, receipt);
    if bound.Err? {
      return Err(bound.error);
    }
    var winner := Winning(w, c);
    if job.status == Succeeded {
      if !winner {
        return Err(LeaseConflict);
      }
      return if job.receipt == Some(bound.value) then Ok(w) else Err(Conflict);
    }
    if job.status == FailedPermanent && job.lastError in {Some("deadline"), Some("max_attempts")} {
      return if winner then Ok(w) else Err(LeaseConflict);
    }
    if Holds(w, c) && Reached(job.deadline, now) {
      r := EndJob(w, c.job, "deadline", now);
      return;
    }
    if !Live(w, c, now) {
      return Err(LeaseConflict);
    }
    var row := job.(status := Succeeded, owner := None, token := None, leaseExpires := None,
                    receipt := Some(bound.value), completedAt := Some(now));
    r := Ok(FinishAttempt(w.(jobs := w.jobs[c.job := row]),
                          c.job, job.attemptCount, Won, None, Some(bound.value), now));
  }

  method FailRow(w: World, c: Claim, error: string, retryable: bool, retryAfter: Option<nat>, now: int)
    returns (r: Result<World, Error>)
    ensures r == FailJob(w, c, error, retryable, retryAfter, now)
  {
    if Holds(w, c) && Reached(w.jobs[c.job].deadline, now) {
      r := EndJob(w, c.job, "deadline", now);
      return;
    }
    if c.job !in w.jobs {
      return Err(NotFound);
    }
    if !Live(w, c, now) {
      return Err(LeaseConflict);
    }
    var job := w.jobs[c.job];
    var n := job.attemptCount;
    if retryable && n < job.maxAttempts {
      var delay := if retryAfter.Some? then retryAfter.value else Backoff(n);
      var row := job.(status := RetryWait, owner := None, token := None, leaseExpires := None,
                      nextAttempt := PlusSeconds(now, delay), lastError := Some(error), completedAt := None);
      r := Ok(FinishAttempt(w.(jobs := w.jobs[c.job := row]), c.job, n, WaitingRetry, Some(error), None, now));
    } else {
      var row := FailedRow(job, error, now).(nextAttempt := now);
      var v := FinishAttempt(w.(jobs := w.jobs[c.job := row]), c.job, n, Lost, Some(error), None, now);
      r := Project(v, job, now);
    }
  }

  lemma RecoverSafe(w: World, order: seq<JobId>, now: int, r: Result<World, Error>)
    requires ListsExpired(order, w, now) && r == RecoverAll(w, order, now)
    ensures Inv(w) && r.Ok? ==> Inv(r.value)
  {
    if Inv(w) && r.Ok? {
      RecoverKeeps(w, order, now);
    }
  }

  /** The tables and the answer a transaction leaves: `spec` committed, or raised and rolled back. */
  predicate Settled<T>(before: World, spec: Result<World, Error>, after: World, r: Result<T, Error>) {
    if spec.Ok? then after == spec.value && r.Ok? else after == before && r.Err? && r.error == spec.error
  }

  class Store {
    var tables: World

    constructor ()
      ensures tables == World(map[], map[], map[], map[], map[], map[])
      ensures Inv(tables)
    {
      tables := World(map[], map[], map[], map[], map[], map[]);
    }

    method EnqueueWorkerJob(id: JobId, s: Spec, fence: Option<(Claim, string)>, now: int) returns (r: Result<(), Error>)
      modifies this
      ensures Settled(old(tables), EnqueueJob(old(tables), id, s, fence, now), tables, r)
      ensures EnqueueOutcome(old(tables), tables, id, s, fence, now, r.Ok?)
      ensures old(Inv(tables)) ==> Inv(tables)
    {
      WhenEnqueued(tables, id, s, fence, now);
      if !(1 <= s.maxAttempts <= 100) {
        return Err(Invalid);
      }
      var w := tables;
      if fence.Some? {
        var checked := CheckEffect(w, fence.value.0, Some(fence.value.1), s.payload.turnId, now);
        if checked.Err? {
          return Err(checked.error);
        }
        if !checked.value.1 {
          return Err(LeaseConflict);
        }
        w := checked.value.0;
      }
      var inserted := InsertJob(w, id, s, now);
      if inserted.Err? {
        return Err(inserted.error);
      }
      ghost var step := Enqueue(id, s, fence, now);
      if Inv(tables) {
        StepKeeps(tables, step);
      }
      tables := inserted.value;
      r := Ok(());
    }

    method ClaimWorkerJob(owner: string, lease: int, now: int)
      returns (r: Result<Option<JobId>, Error>, ghost rows: ClaimRows)
      modifies this
      ensures RowsOf(rows, old(tables), now)
      ensures Settled(old(tables), ClaimJob(old(tables), owner, lease, rows, now), tables, r)
      ensures r.Ok? ==> r.value == rows.pick
      ensures old(Inv(tables)) && r.Ok? ==> ClaimOutcome(old(tables), tables, owner, lease, now, r.value)
      ensures old(Inv(tables)) ==> Inv(tables)
    {
      rows := ClaimRows([], [], [], None);
      var r1, o1 := SweepRows(tables, ByDeadline, now);
      rows := rows.(deadline := o1);
      if r1.Err? {
        return Err(r1.error), rows;
      }
      var r2, o2 := SweepRows(r1.value, ByArtifact, now);
      rows := rows.(artifact := o2);
      if r2.Err? {
        return Err(r2.error), rows;
      }
      var r3, o3 := SweepRows(r2.value, ByAttempts, now);
      rows := rows.(attempts := o3);
      if r3.Err? {
        return Err(r3.error), rows;
      }
      var w := r3.value;
      var pick := PickRow(w, now);
      rows := rows.(pick := pick);
      if pick.Some? {
        w := TakeRow(w, pick.value, owner, lease, now);
      }
      if Inv(tables) {
        ClaimKeeps(tables, owner, lease, rows, now);
        WhenClaimed(tables, owner, lease, rows, now, w);
      }
      tables := w;
      r := Ok(pick);
    }

    method RenewWorkerLease(c: Claim, lease: int, now: int) returns (r: Result<bool, Error>)
      modifies this
      ensures Settled(old(tables), Commit(old(tables), Renew(c, lease, now)), tables, r)
      ensures r.Ok? ==> RenewLease(old(tables), c, lease, now) == Ok((tables, r.value))
      ensures RenewOutcome(old(tables), tables, c, lease, now, r)
      ensures old(Inv(tables)) ==> Inv(tables)
    {
      if Inv(tables) {
        StepKeeps(tables, Renew(c, lease, now));
      }
      ghost var before := tables;
      var renewed := RenewRow(tables, c, lease, now);
      if renewed.Ok? {
        tables := renewed.value.0;
      }
      r := if renewed.Ok? then Ok(renewed.value.1) else Err(renewed.error);
      WhenRenewed(before, c, lease, now, tables, r);
    }

    method AssertWorkerEffect(c: Claim, stage: Option<string>, turn: Option<string>, now: int)
      returns (r: Result<bool, Error>)
      modifies this
      ensures Settled(old(tables), Commit(old(tables), Effect(c, stage, turn, now)), tables, r)
      ensures r.Ok? ==> AssertEffect(old(tables), c, stage, turn, now) == Ok((tables, r.value))
      ensures EffectOutcome(old(tables), tables, c, stage, turn, now, r)
      ensures old(Inv(tables)) ==> Inv(tables)
    {
      if Inv(tables) {
        StepKeeps(tables, Effect(c, stage, turn, now));
      }
      ghost var before := tables;
      var checked := CheckEffect(tables, c, stage, turn, now);
      if checked.Ok? {
        tables := checked.value.0;
      }
      r := if checked.Ok? then Ok(checked.value.1) else Err(checked.error);
      WhenEffectPasses(before, c, stage, turn, now, tables, r);
    }

    method CompleteWorkerJob(c: Claim, receipt: Receipt, now: int) returns (r: Result<(), Error>)
      modifies this
      ensures Settled(old(tables), CompleteJob(old(tables), c, receipt, now), tables, r)
      ensures old(Inv(tables)) ==> CompleteOutcome(old(tables), tables, c, receipt, now, r)
      ensures old(Inv(tables)) ==> Inv(tables)
    {
      ghost var before := tables;
      var done := CompleteRow(tables, c, receipt, now);
      if done.Ok? {
        if Inv(tables) {
          CompleteKeeps(tables, c, receipt, now);
        }
        tables := done.value;
      }
      r := if done.Ok? then Ok(()) else Err(done.error);
      if Inv(before) {
        WhenCompleted(before, c, receipt, now, tables, r);
      }
    }

    method FailWorkerJob(c: Claim, error: string, retryable: bool, retryAfter: Option<nat>, now: int)
      returns (r: Result<(), Error>)
      modifies this
      ensures Settled(old(tables), FailJob(old(tables), c, error, retryable, retryAfter, now), tables, r)
      ensures old(Inv(tables)) ==> FailOutcome(old(tables), tables, c, error, retryable, retryAfter, now, r)
      ensures old(Inv(tables)) ==> Inv(tables)
    {
      ghost var before := tables;
      var done := FailRow(tables, c, error, retryable, retryAfter, now);
      if done.Ok? {
        if Inv(tables) {
          FailKeeps(tables, c, error, retryable, retryAfter, now);
        }
        tables := done.value;
      }
      r := if done.Ok? then Ok(()) else Err(done.error);
      if Inv(before) {
        WhenFailed(before, c, error, retryable, retryAfter, now, tables, r);
      }
    }

    method RecoverWorkerJobs(now: int) returns (r: Result<(int, int), Error>, ghost order: seq<JobId>)
      modifies this
      ensures ListsExpired(order, old(tables), now)
      ensures Settled(old(tables), RecoverAll(old(tables), order, now), tables, r)
      ensures r.Ok? ==> Counted(old(tables), order, now, r.value.0, r.value.1)
      ensures r.Ok? ==> RecoveryOutcome(old(tables), tables, now)
      ensures old(Inv(tables)) ==> Inv(tables)
    {
      var w, requeued, failed;
      w, requeued, failed, order := RecoverRows(tables, now);
      RecoverSafe(tables, order, now, w);
      if w.Err? {
        r := Err(w.error);
      } else {
        WhenPassReturns(tables, order, now, w.value);
        tables := w.value;
        r := Ok((requeued, failed));
      }
    }
  }

  predicate OutOfChances(job: Job, now: int) {
    Reached(job.deadline, now) || job.attemptCount >= job.maxAttempts
  }

  /** How many of the walked rows had no further attempt coming. */
  ghost function CountEnded(w: World, order: seq<JobId>, now: int): nat
    decreases |order|
  {
    if order == [] then 0
    else
      var id := order[|order| - 1];
      CountEnded(w, order[..|order| - 1], now) + if id in w.jobs && OutOfChances(w.jobs[id], now) then 1 else 0
  }

  method RecoverRow(w: World, id: JobId, now: int) returns (r: Result<World, Error>)
    ensures r == RecoverOne(w, id, now)
  {
    if id !in w.jobs {
      return Ok(w);
    }
    var job := w.jobs[id];
    var late := Reached(job.deadline, now);
    if late || job.attemptCount >= job.maxAttempts {
      var error := if late then "deadline" else "lease_expired";
      var v := FinishAttempt(w.(jobs := w.jobs[id := FailedRow(job, error, now)]),
                             id, job.attemptCount, Lost, None, None, now);
      r := Project(v, job, now);
    } else {
      var row := job.(status := RetryWait, owner := None, token := None, leaseExpires := None, nextAttempt := now);
      r := Ok(FinishAttempt(w.(jobs := w.jobs[id := row]), id, job.attemptCount, Reclaimed, None, None, now));
    }
  }

  /** The walked rows without a further attempt are the failed ones, the others were requeued. */
  ghost predicate Counted(w: World, order: seq<JobId>, now: int, requeued: int, failed: int) {
    failed == CountEnded(w, order, now) && requeued == |order| - failed
  }

  /** The rows walked so far are the expired ones that are not left, each once. */
  ghost predicate Visited(order: seq<JobId>, expired: set<JobId>, rest: set<JobId>) {
    && rest <= expired
    && (forall id | id in order :: id in expired && id !in rest)
    && (forall id | id in expired && id !in rest :: id in order)
    && (forall i, j | 0 <= i < j < |order| :: order[i] != order[j])
  }

  lemma VisitNext(order: seq<JobId>, expired: set<JobId>, rest: set<JobId>, id: JobId)
    requires Visited(order, expired, rest) && id in rest
    ensures Visited(order + [id], expired, rest - {id})
  {
    assert forall o | o in order + [id] :: o in order || o == id;
    assert (order + [id])[|order|] == id;
    assert forall o | o in order :: o in order + [id];
  }

  lemma RecoverNextRow(w: World, order: seq<JobId>, id: JobId, now: int)
    ensures RecoverAll(w, order + [id], now) ==
            if RecoverAll(w, order, now).Ok? then RecoverOne(RecoverAll(w, order, now).value, id, now)
            else RecoverAll(w, order, now)
    ensures CountEnded(w, order + [id], now) ==
            CountEnded(w, order, now) + if id in w.jobs && OutOfChances(w.jobs[id], now) then 1 else 0
  {
    assert (order + [id])[..|order|] == order;
  }

  method RecoverRows(w0: World, now: int)
    returns (w: Result<World, Error>, requeued: int, failed: int, ghost order: seq<JobId>)
    ensures ListsExpired(order, w0, now)
    ensures w == RecoverAll(w0, order, now)
    ensures Counted(w0, order, now, requeued, failed)
  {
    var rows := w0.jobs;
    var rest := set id | id in rows && LeaseExpired(rows[id], now);
    ghost var expired := rest;
    requeued, failed, order := 0, 0, [];
    w := Ok(w0);
    while rest != {}
      invariant Visited(order, expired, rest)
      invariant w == RecoverAll(w0, order, now)
      invariant failed == CountEnded(w0, order, now) && requeued == |order| - failed
      decreases rest
    {
      var id :| id in rest;
      VisitNext(order, expired, rest, id);
      RecoverNextRow(w0, order, id, now);
      rest := rest - {id};
      order := order + [id];
      if w.Ok? {
        w := RecoverRow(w.value, id, now);
      }
      if id in rows && OutOfChances(rows[id], now) {
        failed := failed + 1;
      } else {
        requeued := requeued + 1;
      }
    }
  }
}
