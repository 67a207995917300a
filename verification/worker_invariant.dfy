/**
 * The ledger invariant and what every worker transaction keeps of each job.
 *
 * `Evolves` is the transitive summary of a transaction: rows are never deleted,
 * terminal rows never change, and every other row either keeps its stage (only
 * its lease moved) or its fuel drops.
 */
module WorkerInvariant {
  import opened Wrappers
  import opened WorkerLedger

  predicate Terminal(j: Job) {
    j.status == Succeeded || j.status == FailedPermanent
  }

  predicate Unleased(j: Job) {
    j.owner.None? && j.token.None? && j.leaseExpires.None?
  }

  /** Attempts are numbered 1..count, carry their own token, and only the last may be open or terminal. */
  ghost predicate Numbered(w: World, id: JobId)
    requires id in w.jobs
  {
    && (forall n: nat :: (id, n) in w.attempts <==> 1 <= n <= w.jobs[id].attemptCount)
    && (forall n: nat | (id, n) in w.attempts ::
          && w.attempts[(id, n)].token == Issued(id, n)
          && w.attempts[(id, n)].stage == w.jobs[id].stage
          && (n < w.jobs[id].attemptCount ==> w.attempts[(id, n)].outcome in {WaitingRetry, Reclaimed}))
  }

  /** What the row says about its newest attempt. */
  predicate LastOk(j: Job, a: Attempt) {
    match j.status
    case Pending => false
    case RetryWait => a.outcome in {WaitingRetry, Reclaimed}
    case Claimed => a.outcome == Running && j.owner == Some(a.owner)
    case Succeeded => a.outcome == Won && a.receipt == j.receipt
    case FailedPermanent => a.outcome in {Lost, WaitingRetry, Reclaimed}
  }

  predicate RowOk(id: JobId, j: Job) {
    && 1 <= j.maxAttempts && j.attemptCount <= j.maxAttempts
    && (j.receipt.Some? <==> j.status == Succeeded)
    && (j.completedAt.Some? <==> Terminal(j))
    && (j.status == Pending ==> j.attemptCount == 0)
    && (j.status == RetryWait ==> 0 < j.attemptCount < j.maxAttempts)
    && (j.status == Succeeded ==> 0 < j.attemptCount && !Reached(j.deadline, j.completedAt.value))
    && (if j.status == Claimed
        then 0 < j.attemptCount && j.owner.Some? && j.token == Some(Issued(id, j.attemptCount)) && j.leaseExpires.Some?
        else Unleased(j))
  }

  ghost predicate JobInv(w: World, id: JobId)
    requires id in w.jobs
  {
    var j := w.jobs[id];
    && RowOk(id, j) && Numbered(w, id)
    && (0 < j.attemptCount ==> LastOk(j, w.attempts[(id, j.attemptCount)]))
  }

  ghost predicate Inv(w: World) {
    && (forall id | id in w.jobs :: JobInv(w, id))
    && (forall k | k in w.attempts :: k.0 in w.jobs)
  }

  /** How many more times the job's status or attempt count can change. */
  function Fuel(j: Job): int {
    match j.status
    case Pending => 2 * (j.maxAttempts - j.attemptCount)
    case RetryWait => 2 * (j.maxAttempts - j.attemptCount)
    case Claimed => 2 * (j.maxAttempts - j.attemptCount) + 1
    case _ => 0
  }

  predicate SameStage(j: Job, k: Job) {
    k == j.(leaseExpires := k.leaseExpires)
  }

  predicate SameRequest(j: Job, k: Job) {
    k.kind == j.kind && k.stage == j.stage && k.payload == j.payload && k.chain == j.chain &&
    k.deadline == j.deadline && k.maxAttempts == j.maxAttempts && k.createdAt == j.createdAt
  }

  predicate Moves(j: Job, k: Job) {
    && SameRequest(j, k)
    && j.attemptCount <= k.attemptCount
    && (Terminal(j) ==> k == j)
    && (SameStage(j, k) || Fuel(k) < Fuel(j))
  }

  predicate Fresh(j: Job) {
    j.status == Pending && j.attemptCount == 0 && j.maxAttempts <= 100
  }

  ghost predicate Evolves(w: World, v: World) {
    && (forall id | id in w.jobs :: id in v.jobs && Moves(w.jobs[id], v.jobs[id]))
    && (forall id | id in v.jobs && id !in w.jobs :: Fuel(v.jobs[id]) <= 200)
  }

  /** The same, for a transaction in which no job succeeds. */
  ghost predicate EvolvesUnwon(w: World, v: World) {
    Evolves(w, v) && forall id | id in v.jobs && v.jobs[id].status == Succeeded ::
        id in w.jobs && v.jobs[id] == w.jobs[id]
  }

  lemma EvolvesTransitive(u: World, v: World, w: World)
    requires Evolves(u, v) && Evolves(v, w)
    ensures Evolves(u, w)
    ensures EvolvesUnwon(u, v) && EvolvesUnwon(v, w) ==> EvolvesUnwon(u, w)
  {
    forall id | id in u.jobs
      ensures id in w.jobs && Moves(u.jobs[id], w.jobs[id])
    {
      assert Moves(u.jobs[id], v.jobs[id]) && Moves(v.jobs[id], w.jobs[id]);
    }
    forall id | id in w.jobs && id !in u.jobs
      ensures Fuel(w.jobs[id]) <= 200
    {
      if id in v.jobs {
        assert Moves(v.jobs[id], w.jobs[id]);
      }
    }
  }

  // ---- one row at a time ---------------------------------------------------------

  /** Nothing outside job `id` moved. */
  ghost predicate OnlyRow(w: World, v: World, id: JobId) {
    && v.jobs.Keys == w.jobs.Keys
    && (forall o | o in w.jobs && o != id :: v.jobs[o] == w.jobs[o])
    && (forall k: (JobId, nat) | k.0 != id :: k in v.attempts <==> k in w.attempts)
    && (forall k | k in w.attempts && k.0 != id :: v.attempts[k] == w.attempts[k])
  }

  lemma OtherRowKeeps(w: World, v: World, id: JobId, o: JobId)
    requires OnlyRow(w, v, id) && o != id && o in w.jobs && o in v.jobs && JobInv(w, o)
    ensures JobInv(v, o)
  {
    assert forall n: nat :: (o, n) in v.attempts <==> (o, n) in w.attempts;
  }

  lemma AttemptsOwned(w: World, v: World, id: JobId)
    requires Inv(w) && id in w.jobs && OnlyRow(w, v, id)
    ensures forall k | k in v.attempts :: k.0 in v.jobs
  {
    forall k | k in v.attempts
      ensures k.0 in v.jobs
    {
      assert k.0 != id ==> k in w.attempts;
      assert k.0 in w.jobs.Keys;
    }
  }

  lemma RowEvolves(w: World, v: World, id: JobId)
    requires id in w.jobs && OnlyRow(w, v, id) && id in v.jobs && Moves(w.jobs[id], v.jobs[id])
    ensures Evolves(w, v)
    ensures v.jobs[id].status != Succeeded ==> EvolvesUnwon(w, v)
  {
    assert forall o | o in v.jobs :: o in w.jobs.Keys;
  }

  lemma RowChange(w: World, v: World, id: JobId)
    requires Inv(w) && id in w.jobs && OnlyRow(w, v, id)
    requires id in v.jobs && JobInv(v, id) && Moves(w.jobs[id], v.jobs[id])
    ensures Inv(v) && Evolves(w, v)
    ensures v.jobs[id].status != Succeeded ==> EvolvesUnwon(w, v)
  {
    forall o | o in v.jobs
      ensures JobInv(v, o)
    {
      if o != id {
        assert o in w.jobs.Keys && JobInv(w, o);
        OtherRowKeeps(w, v, id, o);
      }
    }
    AttemptsOwned(w, v, id);
    RowEvolves(w, v, id);
  }

  lemma LastReplaced(w: World, v: World, id: JobId, row: Job, a: Attempt)
    requires id in w.jobs && JobInv(w, id) && 0 < w.jobs[id].attemptCount == row.attemptCount
    requires RowOk(id, row) && LastOk(row, a) && row.stage == w.jobs[id].stage
    requires a.token == Issued(id, row.attemptCount) && a.stage == row.stage
    requires v == w.(jobs := w.jobs[id := row], attempts := w.attempts[(id, row.attemptCount) := a])
    ensures JobInv(v, id) && OnlyRow(w, v, id)
  {
    assert v.jobs.Keys == w.jobs.Keys;
  }

  /** Rewriting a row together with its newest attempt. */
  lemma ReplaceLast(w: World, id: JobId, row: Job, a: Attempt)
    requires Inv(w) && id in w.jobs && 0 < w.jobs[id].attemptCount == row.attemptCount
    requires Moves(w.jobs[id], row) && RowOk(id, row) && LastOk(row, a)
    requires a.token == Issued(id, row.attemptCount) && a.stage == row.stage
    ensures var v := w.(jobs := w.jobs[id := row], attempts := w.attempts[(id, row.attemptCount) := a]);
            Inv(v) && Evolves(w, v) && OnlyRow(w, v, id) && (row.status != Succeeded ==> EvolvesUnwon(w, v))
  {
    var v := w.(jobs := w.jobs[id := row], attempts := w.attempts[(id, row.attemptCount) := a]);
    LastReplaced(w, v, id, row, a);
    RowChange(w, v, id);
  }

  /** Rewriting a row and no attempt, where the attempts already fit the new row. */
  lemma ReplaceRow(w: World, id: JobId, row: Job)
    requires Inv(w) && id in w.jobs && w.jobs[id].attemptCount == row.attemptCount
    requires Moves(w.jobs[id], row) && RowOk(id, row) && row.status != Succeeded
    requires 0 < row.attemptCount ==>
               (id, row.attemptCount) in w.attempts && LastOk(row, w.attempts[(id, row.attemptCount)])
    ensures var v := w.(jobs := w.jobs[id := row]); Inv(v) && EvolvesUnwon(w, v)
  {
    var v := w.(jobs := w.jobs[id := row]);
    RowReplaced(w, v, id, row);
    RowChange(w, v, id);
  }

  lemma RowReplaced(w: World, v: World, id: JobId, row: Job)
    requires id in w.jobs && JobInv(w, id) && w.jobs[id].attemptCount == row.attemptCount
    requires RowOk(id, row) && row.stage == w.jobs[id].stage && v == w.(jobs := w.jobs[id := row])
    requires 0 < row.attemptCount ==>
               (id, row.attemptCount) in w.attempts && LastOk(row, w.attempts[(id, row.attemptCount)])
    ensures JobInv(v, id) && OnlyRow(w, v, id)
  {
    assert v.jobs.Keys == w.jobs.Keys;
  }

  /** Under the invariant only a claimed row has a running attempt, and only its newest one. */
  lemma OnlyNewestRuns(w: World, id: JobId, k: (JobId, nat))
    requires Inv(w) && id in w.jobs && k in w.attempts && k.0 == id
    ensures w.attempts[k].outcome == Running <==> w.jobs[id].status == Claimed && k.1 == w.jobs[id].attemptCount
  {
    assert JobInv(w, id) && k == (id, k.1);
  }

  function Closed(a: Attempt, outcome: Outcome, error: Option<string>, now: int): Attempt {
    a.(outcome := outcome, errorKind := if error.Some? then error else a.errorKind, finishedAt := Some(now))
  }

  lemma CloseNone(attempts: map<(JobId, nat), Attempt>, id: JobId, outcome: Outcome, error: Option<string>, now: int)
    requires forall k | k in attempts && k.0 == id :: attempts[k].outcome != Running
    ensures CloseRunning(attempts, id, outcome, error, now) == attempts
  {
  }

  lemma CloseOne(attempts: map<(JobId, nat), Attempt>, id: JobId, n: nat, outcome: Outcome, error: Option<string>,
                 now: int)
    requires (id, n) in attempts
    requires forall k | k in attempts && k.0 == id :: attempts[k].outcome == Running <==> k.1 == n
    ensures CloseRunning(attempts, id, outcome, error, now) ==
            attempts[(id, n) := Closed(attempts[(id, n)], outcome, error, now)]
  {
  }

  lemma CloseIsLocal(w: World, id: JobId, outcome: Outcome, error: Option<string>, now: int)
    requires Inv(w) && id in w.jobs
    ensures w.jobs[id].status != Claimed ==> CloseRunning(w.attempts, id, outcome, error, now) == w.attempts
    ensures w.jobs[id].status == Claimed ==>
              var k := (id, w.jobs[id].attemptCount);
              k in w.attempts &&
              CloseRunning(w.attempts, id, outcome, error, now) ==
              w.attempts[k := Closed(w.attempts[k], outcome, error, now)]
  {
    forall k | k in w.attempts && k.0 == id
      ensures w.attempts[k].outcome == Running <==> w.jobs[id].status == Claimed && k.1 == w.jobs[id].attemptCount
    {
      OnlyNewestRuns(w, id, k);
    }
    if w.jobs[id].status == Claimed {
      assert JobInv(w, id);
      CloseOne(w.attempts, id, w.jobs[id].attemptCount, outcome, error, now);
    } else {
      CloseNone(w.attempts, id, outcome, error, now);
    }
  }

  lemma RowAdded(w: World, v: World, id: JobId, row: Job, o: JobId)
    requires Inv(w) && id !in w.jobs && Fresh(row) && RowOk(id, row) && v == w.(jobs := w.jobs[id := row])
    requires o in v.jobs
    ensures JobInv(v, o)
  {
    if o == id {
      assert forall n: nat :: (id, n) !in w.attempts;
    } else {
      assert JobInv(w, o);
    }
  }

  lemma AddRow(w: World, id: JobId, row: Job)
    requires Inv(w) && id !in w.jobs && Fresh(row) && RowOk(id, row)
    ensures var v := w.(jobs := w.jobs[id := row]); Inv(v) && EvolvesUnwon(w, v)
  {
    var v := w.(jobs := w.jobs[id := row]);
    forall o | o in v.jobs
      ensures JobInv(v, o)
    {
      RowAdded(w, v, id, row, o);
    }
  }

  lemma EnqueueKeeps(w: World, id: JobId, s: Spec, now: int)
    requires Inv(w) && 1 <= s.maxAttempts <= 100 && EnqueueTx(w, id, s, now).Ok?
    ensures var v := EnqueueTx(w, id, s, now).value;
            Inv(v) && EvolvesUnwon(w, v)
  {
    var v := EnqueueTx(w, id, s, now).value;
    if id in w.jobs {
      SameLedger(w, v);
    } else {
      AddRow(w, id, v.jobs[id]);
    }
  }

  predicate SpawnsHistory(w: World, job: Job) {
    job.stage == "hermes" && !ForEavesdrop(job) && OwesFinal(w, job) && job.payload.turnId.value in w.ingress
  }

  /** The projection either leaves both ledger tables alone or enqueues the history job. */
  ghost predicate Projected(w: World, v: World, job: Job, now: int) {
    if SpawnsHistory(w, job) then
      var t := job.payload.turnId.value;
      exists u: World {:trigger SameTables(w, u)} ::
        && SameTables(w, u)
        && EnqueueTx(u, HistoryKey(w.ingress[t].submission), HistorySpec(t, w.ingress[t], now), now) == Ok(v)
    else SameTables(w, v)
  }

  predicate SameTables(w: World, v: World) {
    v.jobs == w.jobs && v.attempts == w.attempts
  }

  lemma ProjectShape(w: World, job: Job, now: int)
    requires ProjectTerminal(w, job, now).Ok?
    ensures Projected(w, ProjectTerminal(w, job, now).value, job, now)
  {
    if SpawnsHistory(w, job) {
      var t := job.payload.turnId.value;
      var i := w.ingress[t];
      var u := w.(turns := w.turns[t := Turn(Some("hermes"))], ingress := w.ingress[t := i.(failed := true)]);
      assert SameTables(w, u);
    }
  }

  lemma SpawnFrame(w: World, u: World, v: World, id: JobId, spec: Spec, now: int)
    requires SameTables(w, u) && EnqueueTx(u, id, spec, now) == Ok(v)
    ensures forall o | o in w.jobs :: o in v.jobs && v.jobs[o] == w.jobs[o]
  {
  }

  lemma SpawnKeeps(w: World, u: World, v: World, id: JobId, spec: Spec, now: int)
    requires Inv(w) && SameTables(w, u) && EnqueueTx(u, id, spec, now) == Ok(v) && spec.maxAttempts == 100
    ensures Inv(v) && EvolvesUnwon(w, v)
  {
    SameLedger(w, u);
    EnqueueKeeps(u, id, spec, now);
    EvolvesTransitive(w, u, v);
  }

  lemma ProjectedKeeps(w: World, v: World, job: Job, now: int)
    requires Inv(w) && Projected(w, v, job, now)
    ensures Inv(v) && EvolvesUnwon(w, v) && forall id | id in w.jobs :: id in v.jobs && v.jobs[id] == w.jobs[id]
  {
    if SpawnsHistory(w, job) {
      var t := job.payload.turnId.value;
      var i := w.ingress[t];
      var u: World :| SameTables(w, u) && EnqueueTx(u, HistoryKey(i.submission), HistorySpec(t, i, now), now) == Ok(v);
      SpawnKeeps(w, u, v, HistoryKey(i.submission), HistorySpec(t, i, now), now);
      SpawnFrame(w, u, v, HistoryKey(i.submission), HistorySpec(t, i, now), now);
    } else {
      SameLedger(w, v);
    }
  }

  lemma ProjectKeeps(w: World, job: Job, now: int)
    requires Inv(w) && ProjectTerminal(w, job, now).Ok?
    ensures var v := ProjectTerminal(w, job, now).value;
            Inv(v) && EvolvesUnwon(w, v) && forall id | id in w.jobs :: id in v.jobs && v.jobs[id] == w.jobs[id]
  {
    ProjectShape(w, job, now);
    ProjectedKeeps(w, ProjectTerminal(w, job, now).value, job, now);
  }

  lemma SameLedger(w: World, v: World)
    requires Inv(w) && v.jobs == w.jobs && v.attempts == w.attempts
    ensures Inv(v) && EvolvesUnwon(w, v)
  {
    forall id | id in v.jobs
      ensures JobInv(v, id)
    {
      assert JobInv(w, id);
    }
  }

  lemma EndingKeeps(w: World, id: JobId, error: string, now: int, u: World)
    requires Inv(w) && id in w.jobs && w.jobs[id].status.Active()
    requires u == w.(jobs := w.jobs[id := FailedRow(w.jobs[id], error, now)],
                     attempts := CloseRunning(w.attempts, id, Lost, Some(error), now))
    ensures Inv(u) && EvolvesUnwon(w, u)
  {
    var job, row := w.jobs[id], FailedRow(w.jobs[id], error, now);
    assert JobInv(w, id);
    CloseIsLocal(w, id, Lost, Some(error), now);
    if job.status == Claimed {
      ReplaceLast(w, id, row, u.attempts[(id, job.attemptCount)]);
    } else {
      ReplaceRow(w, id, row);
    }
  }

  lemma TerminaliseKeeps(w: World, id: JobId, error: string, now: int)
    requires Inv(w) && id in w.jobs && w.jobs[id].status.Active() && Terminalise(w, id, error, now).Ok?
    ensures var v := Terminalise(w, id, error, now).value;
            Inv(v) && EvolvesUnwon(w, v) && id in v.jobs && v.jobs[id] == FailedRow(w.jobs[id], error, now)
  {
    var u := w.(jobs := w.jobs[id := FailedRow(w.jobs[id], error, now)],
                attempts := CloseRunning(w.attempts, id, Lost, Some(error), now));
    EndingKeeps(w, id, error, now, u);
    ProjectKeeps(u, w.jobs[id], now);
    EvolvesTransitive(w, u, Terminalise(w, id, error, now).value);
  }

  /** Closing a claimed row and its running attempt from inside a transaction. */
  lemma FinishKeeps(w: World, id: JobId, row: Job, outcome: Outcome, error: Option<string>, now: int, u: World)
    requires Inv(w) && id in w.jobs && w.jobs[id].status == Claimed && row.attemptCount == w.jobs[id].attemptCount
    requires Moves(w.jobs[id], row) && RowOk(id, row)
    requires || (row.status == RetryWait && outcome in {WaitingRetry, Reclaimed})
             || (row.status == FailedPermanent && outcome == Lost)
    requires u == FinishAttempt(w.(jobs := w.jobs[id := row]), id, row.attemptCount, outcome, error, None, now)
    ensures Inv(u) && EvolvesUnwon(w, u) && OnlyRow(w, u, id) && u.jobs == w.jobs[id := row]
  {
    assert JobInv(w, id);
    ReplaceLast(w, id, row, u.attempts[(id, row.attemptCount)]);
  }

  lemma FailThenProject(w: World, id: JobId, row: Job, error: Option<string>, now: int)
    requires Inv(w) && id in w.jobs && w.jobs[id].status == Claimed
    requires var error := if row.lastError.Some? then row.lastError.value else "";
             row == FailedRow(w.jobs[id], error, now).(nextAttempt := row.nextAttempt)
    requires var u := FinishAttempt(w.(jobs := w.jobs[id := row]), id, row.attemptCount, Lost, error, None, now);
             ProjectTerminal(u, w.jobs[id], now).Ok?
    ensures var done := FinishAttempt(w.(jobs := w.jobs[id := row]), id, row.attemptCount, Lost, error, None, now);
            var u := ProjectTerminal(done, w.jobs[id], now).value;
            Inv(u) && EvolvesUnwon(w, u) && (forall o | o in w.jobs && o != id :: o in u.jobs && u.jobs[o] == w.jobs[o])
  {
    var u := FinishAttempt(w.(jobs := w.jobs[id := row]), id, row.attemptCount, Lost, error, None, now);
    FailedRowOk(w, id, row, now);
    FinishKeeps(w, id, row, Lost, error, now, u);
    ProjectKeeps(u, w.jobs[id], now);
    EvolvesTransitive(w, u, ProjectTerminal(u, w.jobs[id], now).value);
  }

  lemma FailedRowOk(w: World, id: JobId, row: Job, now: int)
    requires Inv(w) && id in w.jobs && w.jobs[id].status == Claimed
    requires var error := if row.lastError.Some? then row.lastError.value else "";
             row == FailedRow(w.jobs[id], error, now).(nextAttempt := row.nextAttempt)
    ensures RowOk(id, row) && Moves(w.jobs[id], row)
  {
    assert JobInv(w, id);
  }

  lemma {:induction false} SweepKeeps(w: World, sweep: Sweep, order: seq<JobId>, now: int)
    requires Inv(w) && SweepAll(w, sweep, order, now).Ok?
    ensures var v := SweepAll(w, sweep, order, now).value;
            Inv(v) && EvolvesUnwon(w, v)
    decreases |order|
  {
    if order == [] {
      SameLedger(w, w);
    } else {
      var w1 := SweepAll(w, sweep, order[..|order| - 1], now).value;
      SweepKeeps(w, sweep, order[..|order| - 1], now);
      var id := order[|order| - 1];
      if id in w1.jobs && Guarded(sweep, w1.jobs[id], now) {
        TerminaliseKeeps(w1, id, sweep.ErrorKind(), now);
      } else {
        SameLedger(w1, w1);
      }
      EvolvesTransitive(w, w1, SweepOne(w1, sweep, id, now).value);
    }
  }

  lemma NextOpened(w: World, v: World, id: JobId, row: Job, closed: map<(JobId, nat), Attempt>, a: Attempt)
    requires id in w.jobs && JobInv(w, id) && row.attemptCount == w.jobs[id].attemptCount + 1
    requires RowOk(id, row) && LastOk(row, a) && row.stage == w.jobs[id].stage
    requires a.token == Issued(id, row.attemptCount) && a.stage == row.stage
    requires closed.Keys == w.attempts.Keys
    requires forall k | k in w.attempts && k.0 == id ::
               && closed[k].token == w.attempts[k].token && closed[k].stage == w.attempts[k].stage
               && closed[k].outcome in {WaitingRetry, Reclaimed}
    requires v == w.(jobs := w.jobs[id := row], attempts := closed[(id, row.attemptCount) := a])
    ensures JobInv(v, id)
  {
    var count := w.jobs[id].attemptCount;
    assert forall n: nat :: (id, n) in v.attempts <==> (id, n) in w.attempts.Keys || n == count + 1;
    assert forall n: nat | (id, n) in v.attempts && n != count + 1 :: v.attempts[(id, n)] == closed[(id, n)];
  }

  lemma OthersUntouched(w: World, v: World, id: JobId, row: Job, closed: map<(JobId, nat), Attempt>, a: Attempt)
    requires id in w.jobs && closed.Keys == w.attempts.Keys
    requires forall k | k in w.attempts && k.0 != id :: closed[k] == w.attempts[k]
    requires v == w.(jobs := w.jobs[id := row], attempts := closed[(id, row.attemptCount) := a])
    ensures OnlyRow(w, v, id)
  {
    assert v.jobs.Keys == w.jobs.Keys;
    assert forall k: (JobId, nat) | k.0 != id :: k in v.attempts <==> k in closed.Keys;
  }

  /** Opening the next attempt, once the newest one (if any) is closed as retryable. */
  lemma OpenAttempt(w: World, id: JobId, row: Job, closed: map<(JobId, nat), Attempt>, a: Attempt)
    requires Inv(w) && id in w.jobs && row.attemptCount == w.jobs[id].attemptCount + 1
    requires Moves(w.jobs[id], row) && RowOk(id, row) && LastOk(row, a)
    requires a.token == Issued(id, row.attemptCount) && a.stage == row.stage
    requires closed.Keys == w.attempts.Keys
    requires forall k | k in w.attempts && k.0 != id :: closed[k] == w.attempts[k]
    requires forall k | k in w.attempts && k.0 == id ::
               && closed[k].token == w.attempts[k].token && closed[k].stage == w.attempts[k].stage
               && closed[k].outcome in {WaitingRetry, Reclaimed}
    ensures var v := w.(jobs := w.jobs[id := row], attempts := closed[(id, row.attemptCount) := a]);
            Inv(v) && Evolves(w, v) && (row.status != Succeeded ==> EvolvesUnwon(w, v))
  {
    var v := w.(jobs := w.jobs[id := row], attempts := closed[(id, row.attemptCount) := a]);
    NextOpened(w, v, id, row, closed, a);
    OthersUntouched(w, v, id, row, closed, a);
    RowChange(w, v, id);
  }

  lemma TakeKeeps(w: World, id: JobId, owner: string, lease: int, now: int)
    requires Inv(w) && id in w.jobs && Eligible(w.jobs[id], now)
    ensures var v := Take(w, id, owner, lease, now);
            Inv(v) && EvolvesUnwon(w, v)
  {
    var v := Take(w, id, owner, lease, now);
    var job := w.jobs[id];
    var closed := if job.status == Claimed then CloseRunning(w.attempts, id, Reclaimed, None, now) else w.attempts;
    assert JobInv(w, id);
    forall k | k in w.attempts && k.0 == id
      ensures closed[k].outcome in {WaitingRetry, Reclaimed}
    {
      OnlyNewestRuns(w, id, k);
      assert k == (id, k.1);
    }
    OpenAttempt(w, id, v.jobs[id], closed, v.attempts[(id, job.attemptCount + 1)]);
  }

  lemma ClaimKeeps(w: World, owner: string, lease: int, rows: ClaimRows, now: int)
    requires Inv(w) && RowsOf(rows, w, now) && ClaimJob(w, owner, lease, rows, now).Ok?
    ensures var v := ClaimJob(w, owner, lease, rows, now).value;
            Inv(v) && EvolvesUnwon(w, v)
  {
    var w1 := SweepAll(w, ByDeadline, rows.deadline, now).value;
    SweepKeeps(w, ByDeadline, rows.deadline, now);
    var w2 := SweepAll(w1, ByArtifact, rows.artifact, now).value;
    SweepKeeps(w1, ByArtifact, rows.artifact, now);
    EvolvesTransitive(w, w1, w2);
    var w3 := SweepAll(w2, ByAttempts, rows.attempts, now).value;
    SweepKeeps(w2, ByAttempts, rows.attempts, now);
    EvolvesTransitive(w, w2, w3);
    if rows.pick.Some? {
      TakeKeeps(w3, rows.pick.value, owner, lease, now);
      EvolvesTransitive(w, w3, Take(w3, rows.pick.value, owner, lease, now));
    }
  }

  lemma LeaseMoves(w: World, id: JobId, until: int)
    requires Inv(w) && id in w.jobs && w.jobs[id].status == Claimed
    ensures var v := w.(jobs := w.jobs[id := w.jobs[id].(leaseExpires := Some(until))]);
            Inv(v) && EvolvesUnwon(w, v)
  {
    assert JobInv(w, id);
    ReplaceRow(w, id, w.jobs[id].(leaseExpires := Some(until)));
  }

  lemma RenewKeeps(w: World, c: Claim, lease: int, now: int)
    requires Inv(w) && RenewLease(w, c, lease, now).Ok?
    ensures var v := RenewLease(w, c, lease, now).value.0;
            Inv(v) && EvolvesUnwon(w, v)
  {
    var v := RenewLease(w, c, lease, now).value.0;
    RenewDoes(w, c, lease, now, v, RenewLease(w, c, lease, now).value.1);
    RenewedKeeps(w, c, now, v);
  }

  /** What a renewal may do to the tables. */
  ghost predicate Renewed(w: World, c: Claim, now: int, v: World) {
    || v == w
    || (Holds(w, c) && Terminalise(w, c.job, "deadline", now) == Ok(v))
    || (Holds(w, c) && exists until :: v == w.(jobs := w.jobs[c.job := w.jobs[c.job].(leaseExpires := Some(until))]))
  }

  lemma RenewDoes(w: World, c: Claim, lease: int, now: int, v: World, extended: bool)
    requires RenewLease(w, c, lease, now) == Ok((v, extended))
    ensures Renewed(w, c, now, v)
  {
  }

  lemma RenewedKeeps(w: World, c: Claim, now: int, v: World)
    requires Inv(w) && Renewed(w, c, now, v)
    ensures Inv(v) && EvolvesUnwon(w, v)
  {
    if v == w {
      SameLedger(w, w);
    } else if Terminalise(w, c.job, "deadline", now) == Ok(v) {
      TerminaliseKeeps(w, c.job, "deadline", now);
    } else {
      var until :| v == w.(jobs := w.jobs[c.job := w.jobs[c.job].(leaseExpires := Some(until))]);
      LeaseMoves(w, c.job, until);
    }
  }

  lemma EffectKeeps(w: World, c: Claim, stage: Option<string>, turn: Option<string>, now: int)
    requires Inv(w) && AssertEffect(w, c, stage, turn, now).Ok?
    ensures var v := AssertEffect(w, c, stage, turn, now).value.0;
            Inv(v) && EvolvesUnwon(w, v)
  {
    if Reached(w.jobs[c.job].deadline, now) {
      TerminaliseKeeps(w, c.job, "deadline", now);
    } else {
      SameLedger(w, w);
    }
  }

  lemma EnqueueJobKeeps(w: World, id: JobId, s: Spec, fence: Option<(Claim, string)>, now: int)
    requires Inv(w) && EnqueueJob(w, id, s, fence, now).Ok?
    ensures var v := EnqueueJob(w, id, s, fence, now).value;
            Inv(v) && EvolvesUnwon(w, v)
  {
    if fence.Some? {
      EffectKeeps(w, fence.value.0, Some(fence.value.1), s.payload.turnId, now);
      var w1 := AssertEffect(w, fence.value.0, Some(fence.value.1), s.payload.turnId, now).value.0;
      EnqueueKeeps(w1, id, s, now);
      EvolvesTransitive(w, w1, EnqueueTx(w1, id, s, now).value);
    } else {
      EnqueueKeeps(w, id, s, now);
    }
  }

  lemma RetryRowOk(w: World, id: JobId, next: int, error: Option<string>)
    requires Inv(w) && id in w.jobs && w.jobs[id].status == Claimed && w.jobs[id].attemptCount < w.jobs[id].maxAttempts
    ensures var row := w.jobs[id].(status := RetryWait, owner := None, token := None, leaseExpires := None,
                                   nextAttempt := next, lastError := error, completedAt := None);
            RowOk(id, row) && Moves(w.jobs[id], row)
  {
    assert JobInv(w, id);
  }

  lemma FailKeeps(w: World, c: Claim, error: string, retryable: bool, retryAfter: Option<nat>, now: int)
    requires Inv(w) && FailJob(w, c, error, retryable, retryAfter, now).Ok?
    ensures var v := FailJob(w, c, error, retryable, retryAfter, now).value;
            Inv(v) && EvolvesUnwon(w, v)
  {
    var v := FailJob(w, c, error, retryable, retryAfter, now).value;
    var id := c.job;
    var job := w.jobs[id];
    if Reached(job.deadline, now) {
      TerminaliseKeeps(w, id, "deadline", now);
    } else if retryable && job.attemptCount < job.maxAttempts {
      var delay := if retryAfter.Some? then retryAfter.value else Backoff(job.attemptCount);
      RetryRowOk(w, id, PlusSeconds(now, delay), Some(error));
      var row := job.(status := RetryWait, owner := None, token := None, leaseExpires := None,
                      nextAttempt := PlusSeconds(now, delay), lastError := Some(error), completedAt := None);
      FinishKeeps(w, id, row, WaitingRetry, Some(error), now, v);
    } else {
      FailThenProject(w, id, FailedRow(job, error, now).(nextAttempt := now), Some(error), now);
    }
  }

  lemma WinKeeps(w: World, id: JobId, receipt: Receipt, now: int, v: World)
    requires Inv(w) && id in w.jobs && w.jobs[id].status == Claimed && !Reached(w.jobs[id].deadline, now)
    requires v == FinishAttempt(w.(jobs := w.jobs[id := w.jobs[id].(status := Succeeded, owner := None, token := None,
                                                                    leaseExpires := None, receipt := Some(receipt),
                                                                    completedAt := Some(now))]),
                                id, w.jobs[id].attemptCount, Won, None, Some(receipt), now)
    ensures Inv(v) && Evolves(w, v) && OnlyRow(w, v, id) && v.jobs[id].receipt == Some(receipt)
  {
    assert JobInv(w, id);
    ReplaceLast(w, id, v.jobs[id], v.attempts[(id, w.jobs[id].attemptCount)]);
  }

  lemma CompleteKeeps(w: World, c: Claim, receipt: Receipt, now: int)
    requires Inv(w) && CompleteJob(w, c, receipt, now).Ok?
    ensures var v := CompleteJob(w, c, receipt, now).value;
            && Inv(v) && Evolves(w, v)
            && (EvolvesUnwon(w, v) || (Live(w, c, now) && !Reached(w.jobs[c.job].deadline, now)
                                       && v.jobs.Keys == w.jobs.Keys
                                       && v.jobs[c.job].receipt ==
                                          Some(BindReceipt(c.job, w.jobs[c.job], receipt).value)
                                       && forall o | o in w.jobs && o != c.job :: v.jobs[o] == w.jobs[o]))
  {
    var v := CompleteJob(w, c, receipt, now).value;
    if Terminal(w.jobs[c.job]) {
      CompleteReplays(w, c, receipt, now);
      SameLedger(w, w);
    } else if Reached(w.jobs[c.job].deadline, now) {
      TerminaliseKeeps(w, c.job, "deadline", now);
    } else {
      WinKeeps(w, c.job, BindReceipt(c.job, w.jobs[c.job], receipt).value, now, v);
    }
  }

  lemma CompleteReplays(w: World, c: Claim, receipt: Receipt, now: int)
    requires CompleteJob(w, c, receipt, now).Ok? && Terminal(w.jobs[c.job])
    ensures CompleteJob(w, c, receipt, now).value == w
  {
  }

  /** A row found expired keeps its lease until its own turn in the loop. */
  lemma RecoverOneKeeps(w: World, id: JobId, now: int)
    requires Inv(w) && id in w.jobs && LeaseExpired(w.jobs[id], now) && RecoverOne(w, id, now).Ok?
    ensures Recovered(w, RecoverOne(w, id, now).value, [id])
  {
    var job := w.jobs[id];
    var late := Reached(job.deadline, now);
    if late || job.attemptCount >= job.maxAttempts {
      FailThenProject(w, id, FailedRow(job, if late then "deadline" else "lease_expired", now), None, now);
    } else {
      RequeueKeeps(w, id, now, RecoverOne(w, id, now).value);
    }
  }

  lemma RequeueKeeps(w: World, id: JobId, now: int, v: World)
    requires Inv(w) && id in w.jobs && w.jobs[id].status == Claimed && w.jobs[id].attemptCount < w.jobs[id].maxAttempts
    requires v == FinishAttempt(w.(jobs := w.jobs[id := w.jobs[id].(status := RetryWait, owner := None, token := None,
                                                                    leaseExpires := None, nextAttempt := now)]),
                                id, w.jobs[id].attemptCount, Reclaimed, None, None, now)
    ensures Recovered(w, v, [id])
  {
    assert JobInv(w, id);
    RetryRowOk(w, id, now, w.jobs[id].lastError);
    var row := w.jobs[id].(status := RetryWait, owner := None, token := None, leaseExpires := None, nextAttempt := now);
    FinishKeeps(w, id, row, Reclaimed, None, now, v);
  }

  ghost predicate Recovered(w: World, v: World, order: seq<JobId>) {
    && Inv(v) && EvolvesUnwon(w, v)
    && forall o | o in w.jobs && o !in order :: o in v.jobs && v.jobs[o] == w.jobs[o]
  }

  lemma RecoveredMore(w: World, u: World, v: World, front: seq<JobId>, id: JobId)
    requires Recovered(w, u, front) && Recovered(u, v, [id])
    ensures Recovered(w, v, front + [id])
  {
    EvolvesTransitive(w, u, v);
  }

  lemma RecoverNext(w: World, u: World, v: World, front: seq<JobId>, id: JobId, order: seq<JobId>, now: int)
    requires order == front + [id] && Recovered(w, u, front) && id !in front && id in w.jobs
             && LeaseExpired(w.jobs[id], now)
    requires RecoverOne(u, id, now) == Ok(v)
    ensures Recovered(w, v, order)
  {
    RecoverOneKeeps(u, id, now);
    RecoveredMore(w, u, v, front, id);
  }

  lemma RecoverUnfold(w: World, order: seq<JobId>, now: int)
    requires order != [] && RecoverAll(w, order, now).Ok?
    ensures RecoverAll(w, order[..|order| - 1], now).Ok?
    ensures RecoverAll(w, order, now) ==
            RecoverOne(RecoverAll(w, order[..|order| - 1], now).value, order[|order| - 1], now)
  {
  }

  lemma {:induction false} RecoverKeeps(w: World, order: seq<JobId>, now: int)
    requires Inv(w) && RecoverAll(w, order, now).Ok?
    requires forall i, j | 0 <= i < j < |order| :: order[i] != order[j]
    requires forall id | id in order :: id in w.jobs && LeaseExpired(w.jobs[id], now)
    ensures Recovered(w, RecoverAll(w, order, now).value, order)
    decreases |order|
  {
    if order == [] {
      SameLedger(w, w);
    } else {
      var front, id := order[..|order| - 1], order[|order| - 1];
      RecoverKeeps(w, front, now);
      assert order == front + [id];
      RecoverUnfold(w, order, now);
      RecoverNext(w, RecoverAll(w, front, now).value, RecoverAll(w, order, now).value, front, id, order, now);
    }
  }

  // ---- every step -------------------------------------------------------------------

  lemma StepKeeps(w: World, s: Step)
    requires Inv(w)
    ensures Inv(Next(w, s)) && Evolves(w, Next(w, s))
    ensures !s.Complete? ==> EvolvesUnwon(w, Next(w, s))
  {
    if Commit(w, s).Err? {
      SameLedger(w, w);
    } else {
      match s
      case Enqueue(id, spec, fence, now) => EnqueueJobKeeps(w, id, spec, fence, now);
      case ClaimStep(owner, lease, rows, now) => ClaimKeeps(w, owner, lease, rows, now);
      case Renew(c, lease, now) => RenewKeeps(w, c, lease, now);
      case Effect(c, stage, turn, now) => EffectKeeps(w, c, stage, turn, now);
      case Complete(c, receipt, now) => CompleteKeeps(w, c, receipt, now);
      case Fail(c, error, retryable, retryAfter, now) => FailKeeps(w, c, error, retryable, retryAfter, now);
      case Recover(order, now) => RecoverKeeps(w, order, now);
      case Environment(_, _, _, _) => SameLedger(w, Next(w, s));
    }
  }
}
