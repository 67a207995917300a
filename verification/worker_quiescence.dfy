/**
 * Left to itself the worker runs out of work: with no further enqueue, every step
 * that does more than move a lease strictly lowers one potential, even though
 * ending a Hermes job spawns a history job with a hundred attempts of its own.
 */
module WorkerQuiescence {
  import opened Wrappers
  import opened WorkerLedger
  import opened WorkerInvariant
  import opened WorkerRuns

  // ---- sums over the job table -----------------------------------------------------

  ghost function Total(jobs: map<JobId, Job>): int
    decreases |jobs|
  {
    if jobs == map[] then 0
    else
      var id :| id in jobs;
      Fuel(jobs[id]) + Total(jobs - {id})
  }

  lemma {:induction false} TotalSplit(jobs: map<JobId, Job>, id: JobId)
    requires id in jobs
    ensures Total(jobs) == Fuel(jobs[id]) + Total(jobs - {id})
    decreases |jobs|
  {
    var o: JobId :| o in jobs && Total(jobs) == Fuel(jobs[o]) + Total(jobs - {o});
    if o != id {
      TotalSplit(jobs - {o}, id);
      TotalSplit(jobs - {id}, o);
      assert jobs - {o} - {id} == jobs - {id} - {o};
    }
  }

  lemma TotalUpdate(jobs: map<JobId, Job>, id: JobId, j: Job)
    ensures Total(jobs[id := j]) == Total(jobs - {id}) + Fuel(j)
  {
    TotalSplit(jobs[id := j], id);
    assert jobs[id := j] - {id} == jobs - {id};
  }

  lemma {:induction false} TotalNonNegative(jobs: map<JobId, Job>)
    requires forall id | id in jobs :: 0 <= Fuel(jobs[id])
    ensures 0 <= Total(jobs)
    decreases |jobs|
  {
    if jobs != map[] {
      var id: JobId :| id in jobs && Total(jobs) == Fuel(jobs[id]) + Total(jobs - {id});
      TotalNonNegative(jobs - {id});
    }
  }

  function OpenTurns(w: World): set<string> {
    set t | t in w.turns && w.turns[t].finalOutcome.None?
  }

  /** A history job starts with fuel 200, so a turn that may still spawn one is worth 201. */
  ghost function Potential(w: World): int {
    Total(w.jobs) + 201 * |OpenTurns(w)|
  }

  lemma PotentialNonNegative(w: World)
    requires Inv(w)
    ensures 0 <= Potential(w)
  {
    forall id | id in w.jobs
      ensures 0 <= Fuel(w.jobs[id])
    {
      assert JobInv(w, id);
    }
    TotalNonNegative(w.jobs);
  }

  // ---- one row, one projection --------------------------------------------------------

  lemma RowPays(w: World, v: World, id: JobId)
    requires id in w.jobs && id in v.jobs && v.jobs == w.jobs[id := v.jobs[id]] && v.turns == w.turns
    ensures Potential(v) == Potential(w) - Fuel(w.jobs[id]) + Fuel(v.jobs[id])
  {
    TotalSplit(w.jobs, id);
    TotalUpdate(w.jobs, id, v.jobs[id]);
  }

  lemma CloseTurn(w: World, t: string, outcome: string)
    requires t in w.turns && w.turns[t].finalOutcome.None?
    ensures |OpenTurns(w.(turns := w.turns[t := Turn(Some(outcome))]))| == |OpenTurns(w)| - 1
  {
    assert OpenTurns(w.(turns := w.turns[t := Turn(Some(outcome))])) == OpenTurns(w) - {t};
  }

  lemma ProjectPays(w: World, job: Job, now: int)
    requires ProjectTerminal(w, job, now).Ok?
    ensures Potential(ProjectTerminal(w, job, now).value) <= Potential(w)
  {
    var v := ProjectTerminal(w, job, now).value;
    if job.stage == "tts" || ForEavesdrop(job) || !OwesFinal(w, job) {
      assert v.jobs == w.jobs && v.turns == w.turns;
    } else {
      FinalPays(w, job, now, v, job.payload.turnId.value);
    }
  }

  lemma FinalShape(w: World, job: Job, now: int, v: World, t: string)
    requires ProjectTerminal(w, job, now) == Ok(v) && job.stage != "tts" && !ForEavesdrop(job) && OwesFinal(w, job)
    requires job.payload.turnId == Some(t)
    ensures v.jobs == w.jobs ||
            (&& t in w.ingress
             && var key := HistoryKey(w.ingress[t].submission);
                key !in w.jobs && key in v.jobs && v.jobs == w.jobs[key := v.jobs[key]] && Fuel(v.jobs[key]) == 200)
  {
  }

  lemma FinalTurn(w: World, job: Job, now: int, v: World, t: string)
    requires ProjectTerminal(w, job, now) == Ok(v) && job.stage != "tts" && !ForEavesdrop(job) && OwesFinal(w, job)
    requires job.payload.turnId == Some(t)
    ensures t in v.turns && v.turns[t].finalOutcome.Some? && v.turns == w.turns[t := v.turns[t]]
  {
  }

  lemma FinalPays(w: World, job: Job, now: int, v: World, t: string)
    requires ProjectTerminal(w, job, now) == Ok(v) && job.stage != "tts" && !ForEavesdrop(job) && OwesFinal(w, job)
    requires job.payload.turnId == Some(t)
    ensures Potential(v) <= Potential(w)
  {
    FinalShape(w, job, now, v, t);
    FinalTurn(w, job, now, v, t);
    var outcome := v.turns[t].finalOutcome.value;
    CloseTurn(w, t, outcome);
    assert OpenTurns(v) == OpenTurns(w.(turns := w.turns[t := Turn(Some(outcome))]));
    if v.jobs != w.jobs {
      JobAdded(w.jobs, v.jobs, HistoryKey(w.ingress[t].submission));
    }
  }

  lemma JobAdded(jobs: map<JobId, Job>, later: map<JobId, Job>, key: JobId)
    requires key !in jobs && key in later && later == jobs[key := later[key]] && Fuel(later[key]) == 200
    ensures Total(later) == Total(jobs) + 200
  {
    TotalUpdate(jobs, key, later[key]);
    assert jobs - {key} == jobs;
  }

  lemma TerminalisePays(w: World, id: JobId, error: string, now: int)
    requires Inv(w) && id in w.jobs && w.jobs[id].status.Active() && Terminalise(w, id, error, now).Ok?
    ensures Potential(Terminalise(w, id, error, now).value) < Potential(w)
  {
    var row := FailedRow(w.jobs[id], error, now);
    var u := w.(jobs := w.jobs[id := row], attempts := CloseRunning(w.attempts, id, Lost, Some(error), now));
    assert JobInv(w, id);
    RowPays(w, u, id);
    ProjectPays(u, w.jobs[id], now);
  }

  lemma {:induction false} SweepPays(w: World, sweep: Sweep, order: seq<JobId>, now: int)
    requires Inv(w) && SweepAll(w, sweep, order, now).Ok?
    ensures var v := SweepAll(w, sweep, order, now).value;
            v == w || Potential(v) < Potential(w)
    decreases |order|
  {
    if order != [] {
      var front, id := order[..|order| - 1], order[|order| - 1];
      SweepPays(w, sweep, front, now);
      SweepKeeps(w, sweep, front, now);
      var u := SweepAll(w, sweep, front, now).value;
      if id in u.jobs && Guarded(sweep, u.jobs[id], now) {
        TerminalisePays(u, id, sweep.ErrorKind(), now);
      }
    }
  }

  lemma SweepPhasePays(w: World, rows: ClaimRows, now: int)
    requires Inv(w) && SweepPhase(w, rows, now).Ok?
    ensures var v := SweepPhase(w, rows, now).value;
            Inv(v) && (v == w || Potential(v) < Potential(w))
  {
    var w1 := SweepAll(w, ByDeadline, rows.deadline, now).value;
    SweepPays(w, ByDeadline, rows.deadline, now);
    SweepKeeps(w, ByDeadline, rows.deadline, now);
    var w2 := SweepAll(w1, ByArtifact, rows.artifact, now).value;
    SweepPays(w1, ByArtifact, rows.artifact, now);
    SweepKeeps(w1, ByArtifact, rows.artifact, now);
    SweepPays(w2, ByAttempts, rows.attempts, now);
    SweepKeeps(w2, ByAttempts, rows.attempts, now);
  }

  lemma TakePays(w: World, id: JobId, owner: string, lease: int, now: int)
    requires Inv(w) && id in w.jobs && Eligible(w.jobs[id], now)
    ensures Potential(Take(w, id, owner, lease, now)) < Potential(w)
  {
    assert JobInv(w, id);
    RowPays(w, Take(w, id, owner, lease, now), id);
  }

  lemma ClaimPays(w: World, owner: string, lease: int, rows: ClaimRows, now: int)
    requires Inv(w) && RowsOf(rows, w, now) && ClaimJob(w, owner, lease, rows, now).Ok?
    ensures var v := ClaimJob(w, owner, lease, rows, now).value;
            v == w || Potential(v) < Potential(w)
  {
    SweepPhasePays(w, rows, now);
    if rows.pick.Some? {
      TakePays(SweepPhase(w, rows, now).value, rows.pick.value, owner, lease, now);
    }
  }

  /** The two states differ in lease ends at most. */
  ghost predicate OnlyLeases(w: World, v: World) {
    && v == w.(jobs := v.jobs) && v.jobs.Keys == w.jobs.Keys
    && forall id | id in w.jobs :: SameStage(w.jobs[id], v.jobs[id])
  }

  lemma RenewPays(w: World, c: Claim, lease: int, now: int)
    requires Inv(w) && RenewLease(w, c, lease, now).Ok?
    ensures var v := RenewLease(w, c, lease, now).value.0;
            Potential(v) < Potential(w) || (Potential(v) == Potential(w) && OnlyLeases(w, v))
  {
    if Holds(w, c) && Reached(w.jobs[c.job].deadline, now) {
      TerminalisePays(w, c.job, "deadline", now);
    } else if Live(w, c, now) {
      var v := RenewLease(w, c, lease, now).value.0;
      LeaseMoved(w, c.job, v.jobs[c.job].leaseExpires);
    }
  }

  lemma LeaseMoved(w: World, id: JobId, until: Option<int>)
    requires id in w.jobs
    ensures var v := w.(jobs := w.jobs[id := w.jobs[id].(leaseExpires := until)]);
            Potential(v) == Potential(w) && OnlyLeases(w, v)
  {
    RowPays(w, w.(jobs := w.jobs[id := w.jobs[id].(leaseExpires := until)]), id);
  }

  lemma EffectPays(w: World, c: Claim, stage: Option<string>, turn: Option<string>, now: int)
    requires Inv(w) && AssertEffect(w, c, stage, turn, now).Ok?
    ensures var v := AssertEffect(w, c, stage, turn, now).value.0;
            v == w || Potential(v) < Potential(w)
  {
    if Reached(w.jobs[c.job].deadline, now) {
      TerminalisePays(w, c.job, "deadline", now);
    }
  }

  lemma FailPays(w: World, c: Claim, error: string, retryable: bool, retryAfter: Option<nat>, now: int)
    requires Inv(w) && FailJob(w, c, error, retryable, retryAfter, now).Ok?
    ensures Potential(FailJob(w, c, error, retryable, retryAfter, now).value) < Potential(w)
  {
    var id := c.job;
    var job := w.jobs[id];
    var v := FailJob(w, c, error, retryable, retryAfter, now).value;
    assert JobInv(w, id);
    if Reached(job.deadline, now) {
      TerminalisePays(w, id, "deadline", now);
    } else if retryable && job.attemptCount < job.maxAttempts {
      RowPays(w, v, id);
    } else {
      var row := FailedRow(job, error, now).(nextAttempt := now);
      var u := FinishAttempt(w.(jobs := w.jobs[id := row]), id, job.attemptCount, Lost, Some(error), None, now);
      FinishPays(w, u, id, row, now, v);
    }
  }

  lemma FinishPays(w: World, u: World, id: JobId, row: Job, now: int, v: World)
    requires Inv(w) && id in w.jobs && w.jobs[id].status == Claimed && row.status == FailedPermanent
    requires u.jobs == w.jobs[id := row] && u.turns == w.turns && ProjectTerminal(u, w.jobs[id], now) == Ok(v)
    ensures Potential(v) < Potential(w)
  {
    assert JobInv(w, id);
    RowPays(w, u, id);
    ProjectPays(u, w.jobs[id], now);
  }

  lemma CompletePays(w: World, c: Claim, receipt: Receipt, now: int)
    requires Inv(w) && CompleteJob(w, c, receipt, now).Ok?
    ensures var v := CompleteJob(w, c, receipt, now).value;
            v == w || Potential(v) < Potential(w)
  {
    assert JobInv(w, c.job);
    if w.jobs[c.job].status == Claimed {
      if Reached(w.jobs[c.job].deadline, now) {
        TerminalisePays(w, c.job, "deadline", now);
      } else {
        RowPays(w, CompleteJob(w, c, receipt, now).value, c.job);
      }
    }
  }

  lemma RecoverOnePays(w: World, id: JobId, now: int)
    requires Inv(w) && id in w.jobs && LeaseExpired(w.jobs[id], now) && RecoverOne(w, id, now).Ok?
    ensures Potential(RecoverOne(w, id, now).value) < Potential(w)
  {
    var job := w.jobs[id];
    assert JobInv(w, id);
    var late := Reached(job.deadline, now);
    if late || job.attemptCount >= job.maxAttempts {
      var error := if late then "deadline" else "lease_expired";
      var u := FinishAttempt(w.(jobs := w.jobs[id := FailedRow(job, error, now)]),
                             id, job.attemptCount, Lost, None, None, now);
      RowPays(w, u, id);
      ProjectPays(u, job, now);
    } else {
      RowPays(w, RecoverOne(w, id, now).value, id);
    }
  }

  lemma {:induction false} RecoverPays(w: World, order: seq<JobId>, now: int)
    requires Inv(w) && RecoverAll(w, order, now).Ok?
    requires forall i, j | 0 <= i < j < |order| :: order[i] != order[j]
    requires forall id | id in order :: id in w.jobs && LeaseExpired(w.jobs[id], now)
    ensures var v := RecoverAll(w, order, now).value;
            v == w || Potential(v) < Potential(w)
    decreases |order|
  {
    if order != [] {
      var front, id := order[..|order| - 1], order[|order| - 1];
      RecoverUnfold(w, order, now);
      RecoverPays(w, front, now);
      RecoverKeeps(w, front, now);
      var u := RecoverAll(w, front, now).value;
      assert id in order && id !in front;
      RecoverOnePays(u, id, now);
    }
  }

  // ---- the theorem -----------------------------------------------------------------------

  predicate Internal(s: Step) {
    !s.Enqueue? && !s.Environment?
  }

  lemma StepPays(w: World, s: Step)
    requires Inv(w) && Internal(s)
    ensures Potential(Next(w, s)) < Potential(w) || (Potential(Next(w, s)) == Potential(w) && OnlyLeases(w, Next(w, s)))
  {
    if Commit(w, s).Ok? {
      match s
      case ClaimStep(owner, lease, rows, now) => ClaimPays(w, owner, lease, rows, now);
      case Renew(c, lease, now) => RenewPays(w, c, lease, now);
      case Effect(c, stage, turn, now) => EffectPays(w, c, stage, turn, now);
      case Complete(c, receipt, now) => CompletePays(w, c, receipt, now);
      case Fail(c, error, retryable, retryAfter, now) => FailPays(w, c, error, retryable, retryAfter, now);
      case Recover(order, now) => RecoverPays(w, order, now);
    }
  }

  ghost function EffectiveSteps(w: World, steps: seq<Step>): nat
    decreases |steps|
  {
    if steps == [] then 0
    else
      var front := steps[..|steps| - 1];
      EffectiveSteps(w, front) + if OnlyLeases(Run(w, front), Run(w, steps)) then 0 else 1
  }

  /** A run of worker steps alone has at most `Potential` effective steps, however long it is. */
  lemma {:induction false} WorkRunsOut(w: World, steps: seq<Step>)
    requires Inv(w) && forall s | s in steps :: Internal(s)
    ensures EffectiveSteps(w, steps) + Potential(Run(w, steps)) <= Potential(w)
    ensures 0 <= Potential(Run(w, steps))
    decreases |steps|
  {
    RunKeeps(w, steps);
    PotentialNonNegative(Run(w, steps));
    if steps != [] {
      var front := steps[..|steps| - 1];
      WorkRunsOut(w, front);
      RunKeeps(w, front);
      StepPays(Run(w, front), steps[|steps| - 1]);
    }
  }
}
