/** What one claim guarantees about the whole queue: no live lease is taken over, nothing overdue is left. */
module WorkerClaim {
  import opened Wrappers
  import opened WorkerLedger
  import opened WorkerInvariant
  import opened WorkerSweeps
  import opened WorkerRuns

  predicate Overdue(j: Job, now: int) {
    j.status.Active() && Reached(j.deadline, now)
  }

  // ---- what the projection may add -------------------------------------------------

  lemma ProjectFrame(w: World, job: Job, now: int)
    requires ProjectTerminal(w, job, now).Ok?
    ensures var v := ProjectTerminal(w, job, now).value;
            && (forall id | id in w.jobs :: id in v.jobs && v.jobs[id] == w.jobs[id])
            && (forall id | id in v.jobs && id !in w.jobs ::
                  && SpawnsHistory(w, job) && id == HistoryKey(w.ingress[job.payload.turnId.value].submission)
                  && v.jobs[id].kind == HISTORY_KIND && Fresh(v.jobs[id]) && !Overdue(v.jobs[id], now))
  {
    ProjectShape(w, job, now);
  }

  /**
   * Ending a job adds at most the history job of its own submission, ending a history
   * job adds nothing, and a turn that has spawned is closed, so it never spawns again.
   */
  lemma HistorySpawnsOnce(w: World, job: Job, now: int, other: Job)
    requires ProjectTerminal(w, job, now).Ok?
    ensures var v := ProjectTerminal(w, job, now).value;
            && (forall id | id in v.jobs && id !in w.jobs ::
                  && SpawnsHistory(w, job) && id == HistoryKey(w.ingress[job.payload.turnId.value].submission)
                  && v.jobs[id].kind == HISTORY_KIND)
            && (job.kind == HISTORY_KIND ==> v.jobs == w.jobs)
            && (SpawnsHistory(w, job) && other.payload.turnId == job.payload.turnId ==> !SpawnsHistory(v, other))
  {
    ProjectFrame(w, job, now);
    ProjectShape(w, job, now);
  }

  // ---- sweeps --------------------------------------------------------------------------

  /** Only listed rows move, they end, and whatever is new is a fresh job that is not overdue. */
  ghost predicate Swept(w: World, v: World, order: seq<JobId>, now: int) {
    && Inv(v) && Evolves(w, v)
    && RowsSwept(w.jobs, v.jobs, order, now)
  }

  ghost predicate RowsSwept(r: map<JobId, Job>, s: map<JobId, Job>, order: seq<JobId>, now: int) {
    && (forall id | id in r && id !in order :: id in s && s[id] == r[id])
    && (forall id | id in s && id !in r :: !Overdue(s[id], now))
  }

  lemma TerminaliseFrame(w: World, id: JobId, error: string, now: int, v: World)
    requires id in w.jobs && Terminalise(w, id, error, now) == Ok(v)
    ensures id in v.jobs && v.jobs[id].status == FailedPermanent
    ensures forall o | o in w.jobs && o != id :: o in v.jobs && v.jobs[o] == w.jobs[o]
    ensures forall o | o in v.jobs && o !in w.jobs :: !Overdue(v.jobs[o], now)
  {
    var u := w.(jobs := w.jobs[id := FailedRow(w.jobs[id], error, now)],
                attempts := CloseRunning(w.attempts, id, Lost, Some(error), now));
    ProjectFrame(u, w.jobs[id], now);
  }

  lemma TerminaliseSweeps(w: World, id: JobId, error: string, now: int)
    requires Inv(w) && id in w.jobs && w.jobs[id].status.Active() && Terminalise(w, id, error, now).Ok?
    ensures var v := Terminalise(w, id, error, now).value;
            Swept(w, v, [id], now) && v.jobs[id].status == FailedPermanent
  {
    TerminaliseKeeps(w, id, error, now);
    TerminaliseFrame(w, id, error, now, Terminalise(w, id, error, now).value);
  }

  lemma SweptMore(w: World, u: World, v: World, front: seq<JobId>, id: JobId, now: int)
    requires Swept(w, u, front, now) && Swept(u, v, [id], now)
    requires id in w.jobs
    ensures Swept(w, v, front + [id], now)
  {
    EvolvesTransitive(w, u, v);
    RowsSweptMore(w.jobs, u.jobs, v.jobs, front, id, now);
  }

  lemma RowsSweptMore(r: map<JobId, Job>, s: map<JobId, Job>, t: map<JobId, Job>, front: seq<JobId>, id: JobId,
                      now: int)
    requires RowsSwept(r, s, front, now) && RowsSwept(s, t, [id], now) && id in r
    ensures RowsSwept(r, t, front + [id], now)
  {
    forall o | o in t && o !in r
      ensures !Overdue(t[o], now)
    {
      assert o in s ==> o != id && t[o] == s[o];
    }
  }

  ghost predicate Ended(w: World, v: World, sweep: Sweep, order: seq<JobId>, now: int)
    requires forall id | id in order :: id in w.jobs && id in v.jobs
  {
    forall id | id in order && Guarded(sweep, w.jobs[id], now) :: Terminal(v.jobs[id])
  }

  lemma SweepOneSweeps(w: World, sweep: Sweep, id: JobId, now: int)
    requires Inv(w) && id in w.jobs && SweepOne(w, sweep, id, now).Ok?
    ensures var v := SweepOne(w, sweep, id, now).value;
            Swept(w, v, [id], now) && (Guarded(sweep, w.jobs[id], now) ==> Terminal(v.jobs[id]))
  {
    if Guarded(sweep, w.jobs[id], now) {
      TerminaliseSweeps(w, id, sweep.ErrorKind(), now);
    } else {
      SameLedger(w, w);
    }
  }

  lemma SweepUnfold(w: World, sweep: Sweep, order: seq<JobId>, now: int)
    requires order != [] && SweepAll(w, sweep, order, now).Ok?
    ensures SweepAll(w, sweep, order[..|order| - 1], now).Ok?
    ensures SweepAll(w, sweep, order, now) ==
            SweepOne(SweepAll(w, sweep, order[..|order| - 1], now).value, sweep, order[|order| - 1], now)
  {
  }

  /** Every listed row that passes the guard has ended by the end of the loop. */
  lemma {:induction false} SweepAllSweeps(w: World, sweep: Sweep, order: seq<JobId>, now: int)
    requires Inv(w) && SweepAll(w, sweep, order, now).Ok?
    requires forall id | id in order :: id in w.jobs
    ensures var v := SweepAll(w, sweep, order, now).value;
            Swept(w, v, order, now) && Ended(w, v, sweep, order, now)
    decreases |order|
  {
    if order == [] {
      SameLedger(w, w);
    } else {
      var front, id := order[..|order| - 1], order[|order| - 1];
      SweepAllSweeps(w, sweep, front, now);
      assert order == front + [id];
      SweepUnfold(w, sweep, order, now);
      SweepNext(w, SweepAll(w, sweep, front, now).value, SweepAll(w, sweep, order, now).value,
                sweep, front, id, order, now);
    }
  }

  lemma SweepNext(w: World, u: World, v: World, sweep: Sweep, front: seq<JobId>, id: JobId, order: seq<JobId>, now: int)
    requires order == front + [id] && forall o | o in order :: o in w.jobs
    requires Swept(w, u, front, now) && Ended(w, u, sweep, front, now) && SweepOne(u, sweep, id, now) == Ok(v)
    ensures Swept(w, v, order, now) && Ended(w, v, sweep, order, now)
  {
    SweepOneSweeps(u, sweep, id, now);
    SweptMore(w, u, v, front, id, now);
    EndedRows(w, u, v, sweep, front, id, order, now);
  }

  lemma EndedRow(w: World, u: World, v: World, sweep: Sweep, front: seq<JobId>, id: JobId, o: JobId, now: int)
    requires Swept(w, u, front, now) && Swept(u, v, [id], now)
    requires o in w.jobs && o in u.jobs && Guarded(sweep, w.jobs[o], now)
    requires o in front ==> Terminal(u.jobs[o])
    requires o == id && Guarded(sweep, u.jobs[id], now) ==> Terminal(v.jobs[id])
    requires o in front || o == id
    ensures o in v.jobs && Terminal(v.jobs[o])
  {
    assert Moves(u.jobs[o], v.jobs[o]);
    if o !in front {
      assert u.jobs[o] == w.jobs[o];
    }
  }

  lemma EndedRows(w: World, u: World, v: World, sweep: Sweep, front: seq<JobId>, id: JobId, order: seq<JobId>, now: int)
    requires Swept(w, u, front, now) && Swept(u, v, [id], now)
    requires forall o | o in front :: o in w.jobs && o in u.jobs
    requires Ended(w, u, sweep, front, now)
    requires id in w.jobs && (Guarded(sweep, u.jobs[id], now) ==> Terminal(v.jobs[id]))
    requires forall o | o in order :: o in front || o == id
    ensures forall o | o in order :: o in w.jobs && o in v.jobs
    ensures Ended(w, v, sweep, order, now)
  {
    forall o | o in order
      ensures o in w.jobs && o in v.jobs && (Guarded(sweep, w.jobs[o], now) ==> Terminal(v.jobs[o]))
    {
      if Guarded(sweep, w.jobs[o], now) {
        EndedRow(w, u, v, sweep, front, id, o, now);
      }
    }
  }

  // ---- the claim -------------------------------------------------------------------------

  ghost predicate NoneOverdue(w: World, now: int) {
    forall id | id in w.jobs :: !Overdue(w.jobs[id], now)
  }

  lemma SweptLeavesNoneOverdue(w: World, v: World, order: seq<JobId>, now: int)
    requires Swept(w, v, order, now) && NoneOverdue(w, now)
    ensures NoneOverdue(v, now)
  {
    forall id | id in v.jobs
      ensures !Overdue(v.jobs[id], now)
    {
      if id in w.jobs {
        assert Moves(w.jobs[id], v.jobs[id]);
      }
    }
  }

  lemma FirstSweepClears(w: World, order: seq<JobId>, now: int)
    requires Inv(w) && Lists(order, w, ByDeadline, now) && SweepAll(w, ByDeadline, order, now).Ok?
    ensures NoneOverdue(SweepAll(w, ByDeadline, order, now).value, now)
  {
    SweepAllSweeps(w, ByDeadline, order, now);
  }

  ghost predicate AfterSweeps(w: World, v: World, rows: ClaimRows, now: int) {
    && Inv(v) && NoneOverdue(v, now) && Evolves(w, v)
    && (forall id | id in w.jobs && id !in rows.deadline && id !in rows.artifact && id !in rows.attempts ::
          v.jobs[id] == w.jobs[id])
  }

  lemma SweepPhaseClears(w: World, rows: ClaimRows, now: int)
    requires Inv(w) && RowsOf(rows, w, now) && SweepPhase(w, rows, now).Ok?
    ensures AfterSweeps(w, SweepPhase(w, rows, now).value, rows, now)
  {
    var w1 := SweepAll(w, ByDeadline, rows.deadline, now).value;
    var w2 := SweepAll(w1, ByArtifact, rows.artifact, now).value;
    var w3 := SweepAll(w2, ByAttempts, rows.attempts, now).value;
    SweepAllSweeps(w, ByDeadline, rows.deadline, now);
    FirstSweepClears(w, rows.deadline, now);
    SweepAllSweeps(w1, ByArtifact, rows.artifact, now);
    SweptLeavesNoneOverdue(w1, w2, rows.artifact, now);
    SweepAllSweeps(w2, ByAttempts, rows.attempts, now);
    SweptLeavesNoneOverdue(w2, w3, rows.attempts, now);
    EvolvesTransitive(w, w1, w2);
    EvolvesTransitive(w, w2, w3);
  }

  /**
   * A claim raises exactly when some row of its sweeps would enqueue a history job
   * whose key another job holds, and no earlier row has closed its turn.
   */
  lemma WhenClaimsRaise(w: World, owner: string, lease: int, rows: ClaimRows, now: int)
    requires DistinctSubmissions(w.ingress) && RowsOf(rows, w, now)
    ensures ClaimJob(w, owner, lease, rows, now).Err? <==> Blocked(w, {}, AllRows(rows))
  {
    SweepPhaseOutcome(w, rows, now);
  }

  /** After any claim nothing active is past its deadline; a job is handed out unless none is runnable. */
  lemma ClaimLeavesNothingOverdue(w: World, owner: string, lease: int, rows: ClaimRows, now: int)
    requires Inv(w) && RowsOf(rows, w, now) && DistinctSubmissions(w.ingress)
    ensures ClaimJob(w, owner, lease, rows, now).Err? <==> Blocked(w, {}, AllRows(rows))
    ensures ClaimJob(w, owner, lease, rows, now).Ok? ==>
              ClaimSettles(ClaimJob(w, owner, lease, rows, now).value, owner, lease, rows.pick, now)
  {
    WhenClaimsRaise(w, owner, lease, rows, now);
    var r := SweepPhase(w, rows, now);
    if r.Ok? {
      SweepPhaseClears(w, rows, now);
      ClaimIsTake(w, owner, lease, rows, now);
      PickSettles(r.value, owner, lease, rows.pick, now);
    }
  }

  lemma PickSettles(u: World, owner: string, lease: int, pick: Option<JobId>, now: int)
    requires NoneOverdue(u, now) && FirstEligible(u, pick, now)
    ensures ClaimSettles(if pick.Some? then Take(u, pick.value, owner, lease, now) else u, owner, lease, pick, now)
  {
    if pick.Some? {
      TakeSettles(u, pick.value, owner, lease, now);
    }
  }

  lemma TakeSettles(u: World, id: JobId, owner: string, lease: int, now: int)
    requires NoneOverdue(u, now) && id in u.jobs && Eligible(u.jobs[id], now)
    ensures ClaimSettles(Take(u, id, owner, lease, now), owner, lease, Some(id), now)
  {
    var v := Take(u, id, owner, lease, now);
    assert forall o | o in v.jobs && o != id :: o in u.jobs && v.jobs[o] == u.jobs[o];
  }

  ghost predicate ClaimSettles(v: World, owner: string, lease: int, pick: Option<JobId>, now: int) {
    && NoneOverdue(v, now)
    && (pick.None? ==> forall id | id in v.jobs ::
          !Available(v.jobs[id], now) || v.jobs[id].attemptCount >= v.jobs[id].maxAttempts)
    && (pick.Some? ==>
          var id := pick.value;
          && id in v.jobs && 0 < v.jobs[id].attemptCount
          && Holds(v, Claim(id, owner, Issued(id, v.jobs[id].attemptCount)))
          && v.jobs[id].leaseExpires == Some(PlusSeconds(now, lease))
          && forall n: nat | n < v.jobs[id].attemptCount :: Stale(v, id, n))
  }

  /**
   * While such a job is overdue and no other active job would close its turn, no
   * claim returns, at any later time and for any worker, so no job is handed out.
   */
  lemma {:induction false} OverdueJobBlocksClaims(w: World, id: JobId, since: int, claims: seq<Step>)
    requires DistinctSubmissions(w.ingress) && BlocksClaims(w, id, since)
    requires forall s | s in claims :: s.ClaimStep? && s.now >= since
    ensures Run(w, claims) == w
    ensures forall s | s in claims :: Commit(w, s).Err?
    decreases |claims|
  {
    forall s | s in claims
      ensures Commit(w, s).Err?
    {
      if RowsOf(s.rows, w, s.now) {
        BlockedClaim(w, id, since, s);
      }
    }
    if claims != [] {
      var front := claims[..|claims| - 1];
      OverdueJobBlocksClaims(w, id, since, front);
      assert claims[|claims| - 1] in claims;
    }
  }

  ghost predicate BlocksClaims(w: World, id: JobId, since: int) {
    && id in w.jobs && Overdue(w.jobs[id], since) && HistoryTaken(w, w.jobs[id])
    && forall o | o in w.jobs && o != id && w.jobs[o].status.Active() ::
         !Closes(w.jobs[o], w.jobs[id].payload.turnId.value)
  }

  lemma BlockedClaim(w: World, id: JobId, since: int, s: Step)
    requires DistinctSubmissions(w.ingress) && BlocksClaims(w, id, since)
    requires s.ClaimStep? && s.now >= since && RowsOf(s.rows, w, s.now)
    ensures ClaimJob(w, s.owner, s.lease, s.rows, s.now).Err?
  {
    var order := s.rows.deadline;
    assert Selected(w, ByDeadline, w.jobs[id], s.now);
    var i :| 0 <= i < |order| && order[i] == id;
    forall o | o in {} + Ids(order[..i]) && o in w.jobs
      ensures !Closes(w.jobs[o], w.jobs[id].payload.turnId.value)
    {
      assert o in order && Selected(w, ByDeadline, w.jobs[o], s.now);
      assert o != id;
    }
    assert Stuck(w, {} + Ids(order[..i]), order[i]);
    BlockedJoin(w, {}, order, s.rows.artifact);
    BlockedJoin(w, {}, order + s.rows.artifact, s.rows.attempts);
    WhenClaimsRaise(w, s.owner, s.lease, s.rows, s.now);
  }

  /** The job's artifact has expired, or an overdue speech job is about to expire it. */
  ghost predicate ArtifactLost(w: World, job: Job, now: int) {
    || ArtifactGone(w, job, now)
    || (&& job.stage == "tts" && job.payload.artifactId.Some? && job.payload.artifactId.value in w.artifacts
        && w.artifacts[job.payload.artifactId.value].state == ArtifactPending
        && exists id | id in w.jobs ::
             Overdue(w.jobs[id], now) && Kills(w.jobs[id], w.artifacts, job.payload.artifactId.value))
  }

  lemma ArtifactLostIsGone(w: World, order: seq<JobId>, now: int, u: World, job: Job)
    requires Lists(order, w, ByDeadline, now) && SweepAll(w, ByDeadline, order, now) == Ok(u)
    ensures ArtifactGone(u, job, now) <==> ArtifactLost(w, job, now)
  {
    if job.stage == "tts" && job.payload.artifactId.Some? {
      var a := job.payload.artifactId.value;
      ArtifactsAfterDeadlines(w, order, now, u, a);
      forall id | id in w.jobs
        ensures id in Ids(order) <==> Overdue(w.jobs[id], now)
      {
        assert Overdue(w.jobs[id], now) <==> Selected(w, ByDeadline, w.jobs[id], now);
      }
    }
  }

  /** The sweeps meet a row under a live lease exactly for its deadline or its artifact. */
  lemma LeasedRowSwept(w: World, rows: ClaimRows, now: int, c: Claim)
    requires RowsOf(rows, w, now) && Live(w, c, now) && SweepPhase(w, rows, now).Ok?
    ensures c.job in Ids(AllRows(rows)) <==>
            Reached(w.jobs[c.job].deadline, now) || ArtifactLost(w, w.jobs[c.job], now)
  {
    var w1 := SweepAll(w, ByDeadline, rows.deadline, now).value;
    var w2 := SweepAll(w1, ByArtifact, rows.artifact, now).value;
    assert c.job in rows.deadline <==> Selected(w, ByDeadline, w.jobs[c.job], now);
    if c.job !in rows.deadline {
      ArtifactLostIsGone(w, rows.deadline, now, w1, w.jobs[c.job]);
      RowAfterDeadlines(w, rows, now, c);
      assert c.job in rows.artifact <==> Selected(w1, ByArtifact, w1.jobs[c.job], now);
      if c.job !in rows.artifact {
        assert !Selected(w2, ByAttempts, w2.jobs[c.job], now);
      }
    }
  }

  lemma RowAfterDeadlines(w: World, rows: ClaimRows, now: int, c: Claim)
    requires RowsOf(rows, w, now) && c.job in w.jobs && SweepPhase(w, rows, now).Ok? && c.job !in rows.deadline
    ensures var w1 := SweepAll(w, ByDeadline, rows.deadline, now).value;
            var w2 := SweepAll(w1, ByArtifact, rows.artifact, now).value;
            && c.job in w1.jobs && w1.jobs[c.job] == w.jobs[c.job] && c.job in w2.jobs
            && (c.job !in rows.artifact ==> w2.jobs[c.job] == w.jobs[c.job])
  {
    var w1 := SweepAll(w, ByDeadline, rows.deadline, now).value;
    CarriedAtFirst(w);
    ListedAwaits(w, w, {}, ByDeadline, rows.deadline, now);
    SweepCarries(w, w, {}, ByDeadline, rows.deadline, now);
    var done := {} + Ids(rows.deadline);
    ListedAwaits(w, w1, done, ByArtifact, rows.artifact, now);
    SweepCarries(w, w1, done, ByArtifact, rows.artifact, now);
  }

  /**
   * A claim that returns ends a job under a live lease exactly when its deadline is
   * reached or its artifact is lost, and never hands it to anyone.
   */
  lemma LiveLeaseSurvives(w: World, owner: string, lease: int, rows: ClaimRows, now: int, c: Claim)
    requires RowsOf(rows, w, now) && Live(w, c, now)
    ensures var r := ClaimJob(w, owner, lease, rows, now);
            r.Ok? ==>
              && rows.pick != Some(c.job)
              && (Live(r.value, c, now) <==>
                    !Reached(w.jobs[c.job].deadline, now) && !ArtifactLost(w, w.jobs[c.job], now))
  {
    var r := SweepPhase(w, rows, now);
    if r.Ok? {
      LeasedRowSwept(w, rows, now, c);
      SweepPhaseOutcome(w, rows, now);
      assert {} + Ids(AllRows(rows)) == Ids(AllRows(rows));
      LeaseAfterSweeps(w, r.value, Ids(AllRows(rows)), now, c, rows.pick);
      ClaimIsTake(w, owner, lease, rows, now);
      TakeSparesLease(r.value, owner, lease, rows.pick, now, c);
    }
  }

  lemma LeaseAfterSweeps(w: World, u: World, done: set<JobId>, now: int, c: Claim, pick: Option<JobId>)
    requires Live(w, c, now) && JobsCarried(w, u, done) && FirstEligible(u, pick, now)
    ensures Live(u, c, now) <==> c.job !in done
    ensures pick != Some(c.job)
  {
  }

  lemma TakeSparesLease(u: World, owner: string, lease: int, pick: Option<JobId>, now: int, c: Claim)
    requires FirstEligible(u, pick, now) && pick != Some(c.job)
    ensures var v := if pick.Some? then Take(u, pick.value, owner, lease, now) else u;
            Live(v, c, now) <==> Live(u, c, now)
  {
  }

  lemma ClaimIsTake(w: World, owner: string, lease: int, rows: ClaimRows, now: int)
    requires RowsOf(rows, w, now) && ClaimJob(w, owner, lease, rows, now).Ok?
    ensures SweepPhase(w, rows, now).Ok? && FirstEligible(SweepPhase(w, rows, now).value, rows.pick, now)
    ensures var u := SweepPhase(w, rows, now).value;
            ClaimJob(w, owner, lease, rows, now) ==
            Ok(if rows.pick.Some? then Take(u, rows.pick.value, owner, lease, now) else u)
  {
  }

  // ---- leases and delays -----------------------------------------------------------------

  /**
   * A lease that was extended ends by the deadline, no later than asked, and still lies ahead; nothing else changed.
   */
  lemma RenewalIsClamped(w: World, c: Claim, lease: int, now: int, v: World)
    requires RenewLease(w, c, lease, now) == Ok((v, true)) && lease > 0
    ensures c.job in v.jobs && v.jobs[c.job].leaseExpires.Some?
    ensures var until := v.jobs[c.job].leaseExpires.value;
            && now < until <= PlusSeconds(now, lease)
            && (w.jobs[c.job].deadline.Some? ==> until <= w.jobs[c.job].deadline.value)
            && (until == PlusSeconds(now, lease) || Some(until) == w.jobs[c.job].deadline)
            && v == w.(jobs := w.jobs[c.job := w.jobs[c.job].(leaseExpires := Some(until))])
  {
  }

  /** A claimed lease, by contrast, ends by the job's deadline exactly when the lease asked for does. */
  lemma WhenClaimedLeaseMeetsDeadline(w: World, owner: string, lease: int, rows: ClaimRows, now: int, deadline: int)
    requires RowsOf(rows, w, now) && ClaimJob(w, owner, lease, rows, now).Ok? && rows.pick.Some?
    requires SweepPhase(w, rows, now).Ok? && rows.pick.value in SweepPhase(w, rows, now).value.jobs
    requires SweepPhase(w, rows, now).value.jobs[rows.pick.value].deadline == Some(deadline)
    ensures var v := ClaimJob(w, owner, lease, rows, now).value;
            && rows.pick.value in v.jobs && v.jobs[rows.pick.value].leaseExpires.Some?
            && v.jobs[rows.pick.value].deadline == Some(deadline)
            && (v.jobs[rows.pick.value].leaseExpires.value <= deadline <==> now + 1000 * lease <= deadline)
  {
    ClaimIsTake(w, owner, lease, rows, now);
  }

  /** A job with its deadline 5 seconds off, claimed for a minute. */
  const LATE: seq<Step> := [
    Enqueue("job", Spec("asr", "asr", NO_PAYLOAD, None, 3, 0, Some(5000)), None, 0),
    ClaimStep("worker", 60, ClaimRows([], [], [], Some("job")), 0)]

  /** The claim's lease then ends 55 seconds past the deadline. */
  lemma ClaimedLeaseOutlastsDeadline()
    ensures var v := Run(EMPTY, LATE);
            && "job" in v.jobs && v.jobs["job"].deadline == Some(5000) && v.jobs["job"].leaseExpires == Some(60000)
            && Live(v, Claim("job", "worker", Issued("job", 1)), 59999)
  {
    var w := Next(EMPTY, LATE[0]);
    assert LATE[..2] == LATE && LATE[..2][..1] == LATE[..1] && LATE[..1][..0] == [];
    assert Run(EMPTY, LATE[..1]) == w;
    NothingToSweep(w, ClaimRows([], [], [], Some("job")));
    assert Run(EMPTY, LATE) == Next(w, LATE[1]);
  }

  lemma NothingToSweep(w: World, rows: ClaimRows)
    requires rows == ClaimRows([], [], [], Some("job")) && w.jobs.Keys == {"job"} && Eligible(w.jobs["job"], 0)
    requires w.jobs["job"].stage == "asr"
    ensures RowsOf(rows, w, 0) && SweepPhase(w, rows, 0) == Ok(w)
  {
    assert forall id | id in w.jobs :: id == "job";
  }

  lemma {:induction false} Pow2Grows(n: nat)
    ensures Pow2(n) >= 1
    ensures n <= 8 ==> Pow2(n) <= 256
  {
    if n > 8 {
      Pow2Grows(n - 1);
    } else if n > 0 {
      Pow2Grows(n - 1);
      assert n == 1 || n == 2 || n == 3 || n == 4 || n == 5 || n == 6 || n == 7 || n == 8;
    }
  }

  /**
   * A job waiting for a retry is not runnable before its delay is over, and the delay chosen for it is 1 to 256
   * seconds.
   */
  lemma RetryWaitsItsDelay(w: World, c: Claim, error: string, retryAfter: Option<nat>, now: int, v: World, later: int)
    requires FailJob(w, c, error, true, retryAfter, now) == Ok(v)
    requires c.job in w.jobs && Live(w, c, now) && !Reached(w.jobs[c.job].deadline, now)
    requires w.jobs[c.job].attemptCount < w.jobs[c.job].maxAttempts
    ensures 1 <= Backoff(w.jobs[c.job].attemptCount) <= 256
    ensures var delay := if retryAfter.Some? then retryAfter.value else Backoff(w.jobs[c.job].attemptCount);
            && c.job in v.jobs
            && (Eligible(v.jobs[c.job], later) <==>
                  later >= now + 1000 * delay && !Reached(w.jobs[c.job].deadline, later))
  {
    Pow2Grows(if w.jobs[c.job].attemptCount <= 8 then w.jobs[c.job].attemptCount else 8);
  }
}
