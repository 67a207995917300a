/**
 * History jobs over whole runs. As long as nothing else is enqueued under a history
 * key, a submission has at most one history job and ending a job never raises.
 */
module WorkerHistory {
  import opened Wrappers
  import opened WorkerLedger
  import opened WorkerInvariant
  import opened WorkerRuns
  import opened WorkerSweeps
  import opened WorkerClaim

  // ---- the invariant ------------------------------------------------------------------

  predicate IsHistoryKey(id: JobId) {
    HistoryKey("") <= id
  }

  /** A job at a history key, or of the history kind, is the history job of a turn, at that turn's key. */
  ghost predicate HistoryInv(w: World) {
    && DistinctSubmissions(w.ingress)
    && forall id | id in w.jobs :: OwnHistory(w.ingress, id, w.jobs[id])
  }

  ghost predicate OwnHistory(ingress: map<string, Ingress>, id: JobId, j: Job) {
    IsHistoryKey(id) || j.kind == HISTORY_KIND ==> IsHistoryJob(ingress, id, j)
  }

  predicate SpecOf(s: Spec, t: string, i: Ingress) {
    && s.kind == HISTORY_KIND && s.stage == "hermes" && s.chain.None?
    && s.payload == Payload(Some(t), Some(i.target), None, None, Some(i.submission), "")
  }

  /**
   * An enqueue that stays away from history keys and the history kind, or is itself
   * that of a turn's history job; and an environment that only adds ingress rows,
   * under their two unique keys.
   */
  ghost predicate Orderly(w: World, s: Step) {
    match s
    case Enqueue(id, spec, _, _) =>
      (IsHistoryKey(id) || spec.kind == HISTORY_KIND) ==>
        exists t | t in w.ingress :: id == HistoryKey(w.ingress[t].submission) && SpecOf(spec, t, w.ingress[t])
    case Environment(_, ingress, _, _) =>
      DistinctSubmissions(ingress) && forall t | t in w.ingress :: t in ingress && SameIngress(w.ingress[t], ingress[t])
    case _ => true
  }

  ghost predicate OrderlyRun(w: World, steps: seq<Step>)
    decreases |steps|
  {
    steps == [] ||
    (var n := |steps| - 1; OrderlyRun(w, steps[..n]) && Orderly(Run(w, steps[..n]), steps[n]))
  }

  // ---- one transaction ------------------------------------------------------------------

  ghost predicate HistoryAdded(jobs: map<JobId, Job>, later: map<JobId, Job>, ingress: map<string, Ingress>) {
    forall id | id in later && id !in jobs :: IsHistoryJob(ingress, id, later[id])
  }

  ghost predicate RequestsKept(jobs: map<JobId, Job>, later: map<JobId, Job>) {
    forall id | id in jobs :: id in later && SameRequest(jobs[id], later[id])
  }

  /** Jobs keep what they were asked for, and only history jobs are new. */
  ghost predicate Spawned(w: World, v: World) {
    IngressKept(w.ingress, v.ingress) && RequestsKept(w.jobs, v.jobs) && HistoryAdded(w.jobs, v.jobs, w.ingress)
  }

  lemma HistoryJobForward(a: map<string, Ingress>, b: map<string, Ingress>, id: JobId, j: Job, k: Job)
    requires IsHistoryJob(a, id, j) && SameRequest(j, k)
    requires forall t | t in a :: t in b && SameIngress(a[t], b[t])
    ensures IsHistoryJob(b, id, k)
  {
    var t :| t in a && id == HistoryKey(a[t].submission) && HistoryJobOf(j, t, a[t]);
    assert t in b && HistoryJobOf(k, t, b[t]);
  }

  lemma KeptForward(a: map<string, Ingress>, b: map<string, Ingress>)
    requires IngressKept(a, b)
    ensures forall t | t in a :: t in b && SameIngress(a[t], b[t])
    ensures IngressKept(b, a)
  {
    assert forall t | t in a :: t in b.Keys;
    assert forall t | t in b :: t in a.Keys;
  }

  lemma AddedTwice(u: World, v: World, w: World)
    requires Spawned(u, v) && Spawned(v, w)
    ensures HistoryAdded(u.jobs, w.jobs, u.ingress)
  {
    KeptForward(u.ingress, v.ingress);
    forall id | id in w.jobs && id !in u.jobs
      ensures IsHistoryJob(u.ingress, id, w.jobs[id])
    {
      if id in v.jobs {
        HistoryJobForward(u.ingress, u.ingress, id, v.jobs[id], w.jobs[id]);
      } else {
        HistoryJobThrough(u.ingress, v.ingress, id, w.jobs[id]);
      }
    }
  }

  lemma SpawnedTwice(u: World, v: World, w: World)
    requires Spawned(u, v) && Spawned(v, w)
    ensures Spawned(u, w)
  {
    IngressKeptTwice(u.ingress, v.ingress, w.ingress);
    AddedTwice(u, v, w);
  }

  /** A transaction that rewrites rows without touching what they were asked for. */
  lemma RowsRewritten(w: World, v: World)
    requires v.ingress == w.ingress && v.jobs.Keys == w.jobs.Keys
    requires forall id | id in w.jobs :: SameRequest(w.jobs[id], v.jobs[id])
    ensures Spawned(w, v)
  {
    assert forall id | id in v.jobs :: id in w.jobs.Keys;
    assert forall id | id in w.jobs :: id in v.jobs.Keys;
  }

  lemma OneRowRewritten(w: World, v: World, id: JobId, row: Job)
    requires id in w.jobs && SameRequest(w.jobs[id], row) && v.ingress == w.ingress && v.jobs == w.jobs[id := row]
    ensures Spawned(w, v)
  {
    assert v.jobs.Keys == w.jobs.Keys;
    RowsRewritten(w, v);
  }

  lemma ProjectionSpawns(w: World, j: Job, now: int, v: World)
    requires ProjectTerminal(w, j, now) == Ok(v)
    ensures Spawned(w, v)
  {
    ProjectionDoes(w, j, now, v);
  }

  lemma RowThenProjection(w: World, u: World, id: JobId, row: Job, now: int, v: World)
    requires id in w.jobs && SameRequest(w.jobs[id], row) && u.ingress == w.ingress && u.jobs == w.jobs[id := row]
    requires ProjectTerminal(u, w.jobs[id], now) == Ok(v)
    ensures Spawned(w, v)
  {
    OneRowRewritten(w, u, id, row);
    ProjectionSpawns(u, w.jobs[id], now, v);
    SpawnedTwice(w, u, v);
  }

  lemma TerminaliseSpawns(w: World, id: JobId, error: string, now: int, v: World)
    requires id in w.jobs && Terminalise(w, id, error, now) == Ok(v)
    ensures Spawned(w, v)
  {
    var row := FailedRow(w.jobs[id], error, now);
    RowThenProjection(w, Ending(w, id, error, now), id, row, now, v);
  }

  lemma {:induction false} SweepSpawns(w: World, sweep: Sweep, order: seq<JobId>, now: int)
    requires SweepAll(w, sweep, order, now).Ok?
    ensures Spawned(w, SweepAll(w, sweep, order, now).value)
    decreases |order|
  {
    if order == [] {
      RowsRewritten(w, w);
    } else {
      var front, id := order[..|order| - 1], order[|order| - 1];
      SweepSpawns(w, sweep, front, now);
      var u, v := SweepAll(w, sweep, front, now).value, SweepAll(w, sweep, order, now).value;
      if id in u.jobs && Guarded(sweep, u.jobs[id], now) {
        TerminaliseSpawns(u, id, sweep.ErrorKind(), now, v);
        SpawnedTwice(w, u, v);
      }
    }
  }

  lemma ClaimSpawns(w: World, owner: string, lease: int, rows: ClaimRows, now: int, v: World)
    requires ClaimJob(w, owner, lease, rows, now) == Ok(v)
    ensures Spawned(w, v)
  {
    var w1 := SweepAll(w, ByDeadline, rows.deadline, now).value;
    var w2 := SweepAll(w1, ByArtifact, rows.artifact, now).value;
    var w3 := SweepAll(w2, ByAttempts, rows.attempts, now).value;
    SweepSpawns(w, ByDeadline, rows.deadline, now);
    SweepSpawns(w1, ByArtifact, rows.artifact, now);
    SweepSpawns(w2, ByAttempts, rows.attempts, now);
    SpawnedTwice(w, w1, w2);
    SpawnedTwice(w, w2, w3);
    if rows.pick.Some? && rows.pick.value in w3.jobs {
      OneRowRewritten(w3, v, rows.pick.value, v.jobs[rows.pick.value]);
      SpawnedTwice(w, w3, v);
    }
  }

  lemma FailSpawns(w: World, c: Claim, error: string, retryable: bool, retryAfter: Option<nat>, now: int, v: World)
    requires FailJob(w, c, error, retryable, retryAfter, now) == Ok(v)
    ensures Spawned(w, v)
  {
    var job := w.jobs[c.job];
    if Reached(job.deadline, now) {
      TerminaliseSpawns(w, c.job, "deadline", now, v);
    } else if retryable && job.attemptCount < job.maxAttempts {
      OneRowRewritten(w, v, c.job, v.jobs[c.job]);
    } else {
      var row := FailedRow(job, error, now).(nextAttempt := now);
      var u := FinishAttempt(w.(jobs := w.jobs[c.job := row]), c.job, job.attemptCount, Lost, Some(error), None, now);
      RowThenProjection(w, u, c.job, row, now, v);
    }
  }

  lemma CompleteSpawns(w: World, c: Claim, receipt: Receipt, now: int, v: World)
    requires CompleteJob(w, c, receipt, now) == Ok(v)
    ensures Spawned(w, v)
  {
    if v == w {
      RowsRewritten(w, v);
    } else if Reached(w.jobs[c.job].deadline, now) {
      TerminaliseSpawns(w, c.job, "deadline", now, v);
    } else {
      OneRowRewritten(w, v, c.job, v.jobs[c.job]);
    }
  }

  lemma RenewSpawns(w: World, c: Claim, lease: int, now: int, v: World, extended: bool)
    requires RenewLease(w, c, lease, now) == Ok((v, extended))
    ensures Spawned(w, v)
  {
    if v == w {
      RowsRewritten(w, v);
    } else if Reached(w.jobs[c.job].deadline, now) {
      TerminaliseSpawns(w, c.job, "deadline", now, v);
    } else {
      OneRowRewritten(w, v, c.job, v.jobs[c.job]);
    }
  }

  lemma EffectSpawns(w: World, c: Claim, stage: Option<string>, turn: Option<string>, now: int, v: World, ok: bool)
    requires AssertEffect(w, c, stage, turn, now) == Ok((v, ok))
    ensures Spawned(w, v)
  {
    if Reached(w.jobs[c.job].deadline, now) {
      TerminaliseSpawns(w, c.job, "deadline", now, v);
    } else {
      RowsRewritten(w, v);
    }
  }

  lemma RecoverOneSpawns(w: World, id: JobId, now: int, v: World)
    requires RecoverOne(w, id, now) == Ok(v)
    ensures Spawned(w, v)
  {
    if id !in w.jobs {
      RowsRewritten(w, v);
    } else {
      var job := w.jobs[id];
      var late := Reached(job.deadline, now);
      if late || job.attemptCount >= job.maxAttempts {
        var row := FailedRow(job, if late then "deadline" else "lease_expired", now);
        var u := FinishAttempt(w.(jobs := w.jobs[id := row]), id, job.attemptCount, Lost, None, None, now);
        RowThenProjection(w, u, id, row, now, v);
      } else {
        OneRowRewritten(w, v, id, v.jobs[id]);
      }
    }
  }

  lemma {:induction false} RecoverSpawns(w: World, order: seq<JobId>, now: int)
    requires RecoverAll(w, order, now).Ok?
    ensures Spawned(w, RecoverAll(w, order, now).value)
    decreases |order|
  {
    if order == [] {
      RowsRewritten(w, w);
    } else {
      var front := order[..|order| - 1];
      RecoverSpawns(w, front, now);
      var u, v := RecoverAll(w, front, now).value, RecoverAll(w, order, now).value;
      RecoverOneSpawns(u, order[|order| - 1], now, v);
      SpawnedTwice(w, u, v);
    }
  }

  // ---- runs -----------------------------------------------------------------------------

  lemma SpawnedKeeps(w: World, v: World)
    requires HistoryInv(w) && Spawned(w, v)
    ensures HistoryInv(v)
  {
    KeptForward(w.ingress, v.ingress);
    assert DistinctSubmissions(v.ingress);
    forall id | id in v.jobs
      ensures OwnHistory(v.ingress, id, v.jobs[id])
    {
      if IsHistoryKey(id) || v.jobs[id].kind == HISTORY_KIND {
        if id in w.jobs {
          assert OwnHistory(w.ingress, id, w.jobs[id]);
          HistoryJobForward(w.ingress, v.ingress, id, w.jobs[id], v.jobs[id]);
        } else {
          HistoryJobForward(w.ingress, v.ingress, id, v.jobs[id], v.jobs[id]);
        }
      }
    }
  }

  lemma EnqueueKeepsHistory(w: World, id: JobId, spec: Spec, now: int, v: World)
    requires HistoryInv(w) && EnqueueTx(w, id, spec, now) == Ok(v) && Orderly(w, Enqueue(id, spec, None, now))
    ensures HistoryInv(v)
  {
    forall o | o in v.jobs
      ensures OwnHistory(v.ingress, o, v.jobs[o])
    {
      if o in w.jobs {
        assert OwnHistory(w.ingress, o, w.jobs[o]);
      } else if IsHistoryKey(id) || spec.kind == HISTORY_KIND {
        var t :| t in w.ingress && id == HistoryKey(w.ingress[t].submission) && SpecOf(spec, t, w.ingress[t]);
        assert HistoryJobOf(v.jobs[id], t, w.ingress[t]);
      }
    }
  }

  lemma EnvironmentKeepsHistory(w: World, ingress: map<string, Ingress>, v: World)
    requires HistoryInv(w) && DistinctSubmissions(ingress) && v.jobs == w.jobs && v.ingress == ingress
    requires forall t | t in w.ingress :: t in ingress && SameIngress(w.ingress[t], ingress[t])
    ensures HistoryInv(v)
  {
    forall id | id in v.jobs
      ensures OwnHistory(ingress, id, v.jobs[id])
    {
      assert OwnHistory(w.ingress, id, w.jobs[id]);
      if IsHistoryKey(id) || v.jobs[id].kind == HISTORY_KIND {
        HistoryJobForward(w.ingress, ingress, id, w.jobs[id], v.jobs[id]);
      }
    }
  }

  lemma StepSpawns(w: World, s: Step, v: World)
    requires Commit(w, s) == Ok(v) && !s.Enqueue? && !s.Environment?
    ensures Spawned(w, v)
  {
    match s
    case ClaimStep(owner, lease, rows, now) => ClaimSpawns(w, owner, lease, rows, now, v);
    case Renew(c, lease, now) => RenewSpawns(w, c, lease, now, v, RenewLease(w, c, lease, now).value.1);
    case Effect(c, stage, turn, now) =>
      EffectSpawns(w, c, stage, turn, now, v, AssertEffect(w, c, stage, turn, now).value.1);
    case Complete(c, receipt, now) => CompleteSpawns(w, c, receipt, now, v);
    case Fail(c, error, retryable, retryAfter, now) => FailSpawns(w, c, error, retryable, retryAfter, now, v);
    case Recover(order, now) => RecoverSpawns(w, order, now);
  }

  lemma StepKeepsHistory(w: World, s: Step)
    requires HistoryInv(w) && Orderly(w, s)
    ensures HistoryInv(Next(w, s))
  {
    if Commit(w, s).Ok? {
      var v := Next(w, s);
      match s
      case Enqueue(id, spec, fence, now) =>
        assert EnqueueTx(w, id, spec, now) == Ok(v);
        EnqueueKeepsHistory(w, id, spec, now, v);
      case Environment(_, ingress, _, _) => EnvironmentKeepsHistory(w, ingress, v);
      case _ =>
        StepSpawns(w, s, v);
        SpawnedKeeps(w, v);
    }
  }

  lemma {:induction false} RunKeepsHistory(w: World, steps: seq<Step>)
    requires HistoryInv(w) && OrderlyRun(w, steps)
    ensures HistoryInv(Run(w, steps))
    decreases |steps|
  {
    if steps != [] {
      var n := |steps| - 1;
      RunKeepsHistory(w, steps[..n]);
      StepKeepsHistory(Run(w, steps[..n]), steps[n]);
    }
  }

  // ---- theorems -------------------------------------------------------------------------

  /** No submission ever has two history jobs: the one it may have sits at its own key. */
  lemma OneHistoryJob(start: World, steps: seq<Step>, id: JobId)
    requires start.jobs == map[] && DistinctSubmissions(start.ingress) && OrderlyRun(start, steps)
    requires id in Run(start, steps).jobs && Run(start, steps).jobs[id].kind == HISTORY_KIND
    ensures var j := Run(start, steps).jobs[id];
            j.payload.submissionId.Some? && id == HistoryKey(j.payload.submissionId.value)
  {
    RunKeepsHistory(start, steps);
    var v := Run(start, steps);
    assert OwnHistory(v.ingress, id, v.jobs[id]);
  }

  lemma NothingTaken(w: World, job: Job)
    requires HistoryInv(w)
    ensures !HistoryTaken(w, job)
  {
    if job.payload.turnId.Some? && job.payload.turnId.value in w.ingress {
      var t := job.payload.turnId.value;
      var k := HistoryKey(w.ingress[t].submission);
      if k in w.jobs {
        assert IsHistoryKey(k) && OwnHistory(w.ingress, k, w.jobs[k]);
        var o :| o in w.ingress && k == HistoryKey(w.ingress[o].submission) && HistoryJobOf(w.jobs[k], o, w.ingress[o]);
        HistoryKeysDiffer(w.ingress[t].submission, w.ingress[o].submission);
      }
    }
  }

  /** In such a run every claim returns, whatever its queries return and in whatever order. */
  lemma ClaimsReturn(start: World, steps: seq<Step>, owner: string, lease: int, rows: ClaimRows, now: int)
    requires start.jobs == map[] && DistinctSubmissions(start.ingress) && OrderlyRun(start, steps)
    requires RowsOf(rows, Run(start, steps), now)
    ensures ClaimJob(Run(start, steps), owner, lease, rows, now).Ok?
  {
    RunKeepsHistory(start, steps);
    var w := Run(start, steps);
    WhenClaimsRaise(w, owner, lease, rows, now);
    forall id | id in w.jobs
      ensures !HistoryTaken(w, w.jobs[id])
    {
      NothingTaken(w, w.jobs[id]);
    }
  }

  /** So does every recovery of expired leases. */
  lemma {:induction false} RecoveryReturns(w: World, order: seq<JobId>, now: int)
    requires HistoryInv(w)
    ensures RecoverAll(w, order, now).Ok?
    decreases |order|
  {
    if order != [] {
      var front, id := order[..|order| - 1], order[|order| - 1];
      RecoveryReturns(w, front, now);
      RecoverSpawns(w, front, now);
      var u := RecoverAll(w, front, now).value;
      SpawnedKeeps(w, u);
      if id in u.jobs {
        NothingTaken(u, u.jobs[id]);
        RecoveryRaises(u, id, now);
      }
    }
  }

  /** Ending a job from outside never raises there either. */
  lemma EndingReturns(w: World, id: JobId, error: string, now: int)
    requires HistoryInv(w) && id in w.jobs
    ensures Terminalise(w, id, error, now).Ok?
  {
    TerminaliseRaises(w, id, error, now);
    NothingTaken(w, w.jobs[id]);
  }

  // ---- the failing input -----------------------------------------------------------------

  /** A job at the history key of submission "s", then the Hermes job of its turn, with a deadline at 5. */
  const CLASH: seq<Step> := [
    Environment(map["t" := Turn(None)], map["t" := Ingress("s", "session", false)], map[], map[]),
    Enqueue("hermes-history:s", Spec("other", "asr", NO_PAYLOAD, None, 3, 0, None), None, 0),
    Enqueue("job", Spec("hermes", "hermes", NO_PAYLOAD.(turnId := Some("t")), None, 3, 0, Some(5)), None, 0)]

  lemma ClashState()
    ensures var w := Run(EMPTY, CLASH);
            && w.jobs.Keys == {"hermes-history:s", "job"}
            && w.jobs["job"].status == Pending && w.jobs["job"].attemptCount == 0 && w.jobs["job"].maxAttempts == 3
            && w.jobs["job"].nextAttempt == 0 && w.jobs["job"].createdAt == 0 && w.jobs["job"].stage == "hermes"
            && w.jobs["hermes-history:s"].status == Pending && w.jobs["hermes-history:s"].stage == "asr"
            && w.jobs["hermes-history:s"].nextAttempt == 0 && w.jobs["hermes-history:s"].createdAt == 0
            && w.jobs["hermes-history:s"].maxAttempts == 3 && w.jobs["hermes-history:s"].attemptCount == 0
            && w.jobs["hermes-history:s"].deadline.None? && w.jobs["job"].deadline == Some(5)
            && w.jobs["hermes-history:s"].payload == NO_PAYLOAD
            && HistoryTaken(w, w.jobs["job"]) && DistinctSubmissions(w.ingress)
  {
    var w1 := Next(EMPTY, CLASH[0]);
    var w2 := Next(w1, CLASH[1]);
    var w3 := Next(w2, CLASH[2]);
    assert CLASH[..3] == CLASH && CLASH[..2][..1] == CLASH[..1] && CLASH[..1][..0] == [];
    assert Run(EMPTY, CLASH[..1]) == w1;
    assert Run(EMPTY, CLASH[..2]) == w2;
    assert Run(EMPTY, CLASH) == w3;
    assert "hermes-history:s" != "job";
    assert HistoryKey("s") == "hermes-history:s";
    assert w3.jobs.Keys == {"hermes-history:s", "job"};
  }

  /** From that run on, once the deadline has passed no claim returns. */
  lemma HistoryKeyClash(claims: seq<Step>)
    requires forall s | s in claims :: s.ClaimStep? && s.now >= 5
    ensures var w := Run(EMPTY, CLASH);
            Run(w, claims) == w && forall s | s in claims :: Commit(w, s).Err?
  {
    ClashState();
    var w := Run(EMPTY, CLASH);
    assert BlocksClaims(w, "job", 5) by {
      forall o | o in w.jobs && o != "job"
        ensures !Closes(w.jobs[o], "t")
      {
        assert o in w.jobs.Keys;
      }
    }
    OverdueJobBlocksClaims(w, "job", 5, claims);
  }
}
