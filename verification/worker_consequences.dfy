/**
 * What a claim and a recovery pass do to every row, told from the tables before them, and
 * what any step of the ledger writes beside it: the consequences of the jobs it ended.
 */
module WorkerConsequences {
  import opened Wrappers
  import opened WorkerLedger
  import opened WorkerInvariant
  import opened WorkerSweeps
  import opened WorkerRuns
  import opened WorkerClaim
  import opened WorkerOutcomes

  predicate InProcess(j: Job) {
    j.status == Pending || j.status == Claimed || j.status == RetryWait
  }

  predicate OutOfAttempts(j: Job) {
    j.attemptCount >= j.maxAttempts
  }

  // ---- the rows of a sweep --------------------------------------------------------------

  function LostRow(j: Job, error: string, now: int): Job {
    j.(status := FailedPermanent, owner := None, token := None, leaseExpires := None,
       lastError := Some(error), completedAt := Some(now))
  }

  /** Exactly the listed rows have ended. */
  ghost predicate RowsLost(r: map<JobId, Job>, s: map<JobId, Job>, order: seq<JobId>, error: string, now: int) {
    forall id | id in r :: id in s && s[id] == if id in order then LostRow(r[id], error, now) else r[id]
  }

  lemma RowsLostMore(r: map<JobId, Job>, s: map<JobId, Job>, t: map<JobId, Job>, front: seq<JobId>, id: JobId,
                     error: string, now: int)
    requires RowsLost(r, s, front, error, now) && RowsLost(s, t, [id], error, now) && id in r && id !in front
    ensures RowsLost(r, t, front + [id], error, now)
  {
  }

  lemma SweepOneLoses(u: World, sweep: Sweep, id: JobId, now: int, v: World)
    requires id in u.jobs && Guarded(sweep, u.jobs[id], now) && SweepOne(u, sweep, id, now) == Ok(v)
    ensures RowsLost(u.jobs, v.jobs, [id], sweep.ErrorKind(), now)
  {
    var error := sweep.ErrorKind();
    ProjectionDoes(Ending(u, id, error, now), u.jobs[id], now, v);
  }

  lemma {:induction false} SweepLoses(u: World, sweep: Sweep, order: seq<JobId>, now: int, v: World)
    requires Awaiting(u, {}, sweep, order, now) && SweepAll(u, sweep, order, now) == Ok(v)
    ensures RowsLost(u.jobs, v.jobs, order, sweep.ErrorKind(), now)
    decreases |order|
  {
    if order != [] {
      var front, id := order[..|order| - 1], order[|order| - 1];
      assert order == front + [id];
      AwaitingFront(u, {}, sweep, front, id, now);
      SweepLast(u, sweep, front, id, now);
      var m := SweepAll(u, sweep, front, now).value;
      SweepLoses(u, sweep, front, now, m);
      SweepOneLoses(m, sweep, id, now, v);
      RowsLostMore(u.jobs, m.jobs, v.jobs, front, id, sweep.ErrorKind(), now);
    }
  }

  lemma ListedLoses(u: World, sweep: Sweep, order: seq<JobId>, now: int, v: World)
    requires Lists(order, u, sweep, now) && SweepAll(u, sweep, order, now) == Ok(v)
    ensures RowsLost(u.jobs, v.jobs, order, sweep.ErrorKind(), now)
  {
    SweepLoses(u, sweep, order, now, v);
  }

  // ---- a claim --------------------------------------------------------------------------

  predicate Due(j: Job, now: int) {
    || ((j.status == Pending || j.status == RetryWait) && j.nextAttempt <= now)
    || (j.status == Claimed && j.leaseExpires.Some? && j.leaseExpires.value <= now)
  }

  predicate Runnable(j: Job, now: int) {
    Due(j, now) && !Overtime(j, now) && !OutOfAttempts(j)
  }

  /** The speech the job is for has expired, or an overdue job of its turn is about to expire it. */
  ghost predicate SpeechGone(w: World, j: Job, now: int) {
    && j.stage == "tts" && j.payload.artifactId.Some? && j.payload.artifactId.value in w.artifacts
    && var a := w.artifacts[j.payload.artifactId.value];
       || a.state == ArtifactExpired || (a.expiresAt.Some? && a.expiresAt.value <= now)
       || (a.state == ArtifactPending && exists id | id in w.jobs ::
             InProcess(w.jobs[id]) && Overtime(w.jobs[id], now) && w.jobs[id].stage == "tts" &&
             w.jobs[id].payload.artifactId == j.payload.artifactId &&
             (w.jobs[id].payload.turnId.None? || w.jobs[id].payload.turnId.value == a.turnId))
  }

  /** The claim ends the job before it looks for work. */
  ghost predicate SweptAway(w: World, j: Job, now: int) {
    InProcess(j) && (Overtime(j, now) || SpeechGone(w, j, now) || (Due(j, now) && OutOfAttempts(j)))
  }

  ghost function AfterSweep(w: World, j: Job, now: int): Job {
    if !SweptAway(w, j, now) then j
    else LostRow(j, if Overtime(j, now) || SpeechGone(w, j, now) then "deadline" else "max_attempts", now)
  }

  function TakenRow(j: Job, id: JobId, owner: string, lease: int, now: int): Job {
    j.(status := Claimed, owner := Some(owner), token := Some(Issued(id, j.attemptCount + 1)),
       leaseExpires := Some(now + 1000 * lease), attemptCount := j.attemptCount + 1)
  }

  predicate DueFirst(a: Job, b: Job) {
    a.nextAttempt <= b.nextAttempt && (a.nextAttempt == b.nextAttempt ==> a.createdAt <= b.createdAt)
  }

  /** What is handed out: nothing only if nothing is runnable, otherwise a runnable job that is due first. */
  ghost predicate Hands(u: World, v: World, owner: string, lease: int, now: int, pick: Option<JobId>) {
    match pick
    case None => v == u && forall o | o in u.jobs :: !Runnable(u.jobs[o], now)
    case Some(p) =>
      && p in u.jobs && Runnable(u.jobs[p], now)
      && (forall o | o in u.jobs && Runnable(u.jobs[o], now) :: DueFirst(u.jobs[p], u.jobs[o]))
      && v == u.(jobs := u.jobs[p := TakenRow(u.jobs[p], p, owner, lease, now)], attempts := v.attempts)
      && AttemptOpened(u, v, p, owner, now)
  }

  /** The attempt opened for the job; one that was running under an expired lease is closed. */
  ghost predicate AttemptOpened(u: World, v: World, p: JobId, owner: string, now: int)
    requires p in u.jobs
  {
    var n := u.jobs[p].attemptCount + 1;
    && v.attempts.Keys == u.attempts.Keys + {(p, n)}
    && v.attempts[(p, n)] == Attempt(owner, Issued(p, n), u.jobs[p].stage, now, None, Running, None, None)
    && forall k | k in u.attempts && k != (p, n) ::
         v.attempts[k] ==
         if k.0 == p && u.attempts[k].outcome == Running
         then u.attempts[k].(outcome := Reclaimed, finishedAt := Some(now)) else u.attempts[k]
  }

  /** Every row as the sweeps leave it, told from the tables before them, and what the ended rows entail. */
  ghost predicate SweptTo(w: World, u: World, now: int) {
    && (forall id | id in w.jobs :: id in u.jobs && u.jobs[id] == AfterSweep(w, w.jobs[id], now))
    && OnlyHistoryAdded(w.jobs, u.jobs, w.ingress)
    && TablesCarried(w, u, SweptJobs(w, now))
  }

  ghost function SweptJobs(w: World, now: int): set<JobId> {
    set id | id in w.jobs && SweptAway(w, w.jobs[id], now)
  }

  ghost predicate ClaimOutcome(w: World, v: World, owner: string, lease: int, now: int, pick: Option<JobId>) {
    exists u: World :: SweptTo(w, u, now) && Hands(u, v, owner, lease, now, pick)
  }

  lemma SpeechLost(w: World, j: Job, now: int)
    ensures SpeechGone(w, j, now) <==> ArtifactLost(w, j, now)
  {
    if j.stage == "tts" && j.payload.artifactId.Some? && j.payload.artifactId.value in w.artifacts {
      var a := j.payload.artifactId.value;
      forall id | id in w.jobs
        ensures Overdue(w.jobs[id], now) && Kills(w.jobs[id], w.artifacts, a) <==>
                (InProcess(w.jobs[id]) && Overtime(w.jobs[id], now) && w.jobs[id].stage == "tts" &&
                 w.jobs[id].payload.artifactId == j.payload.artifactId &&
                 (w.jobs[id].payload.turnId.None? || w.jobs[id].payload.turnId.value == w.artifacts[a].turnId))
      {
      }
    }
  }

  /** The rows after the sweeps, by the list that met them. */
  lemma PhaseLoses(w: World, rows: ClaimRows, now: int, u: World, id: JobId)
    requires RowsOf(rows, w, now) && SweepPhase(w, rows, now) == Ok(u) && id in w.jobs
    ensures id in u.jobs
    ensures id in rows.deadline <==> InProcess(w.jobs[id]) && Overtime(w.jobs[id], now)
    ensures id !in rows.deadline ==> (id in rows.artifact <==> InProcess(w.jobs[id]) && SpeechGone(w, w.jobs[id], now))
    ensures id in rows.deadline || id in rows.artifact ==> u.jobs[id] == LostRow(w.jobs[id], "deadline", now)
    ensures id !in rows.deadline && id !in rows.artifact ==>
              (id in rows.attempts <==> Due(w.jobs[id], now) && !Overtime(w.jobs[id], now) && OutOfAttempts(w.jobs[id]))
              && u.jobs[id] == if id in rows.attempts then LostRow(w.jobs[id], "max_attempts", now) else w.jobs[id]
  {
    var w1 := SweepAll(w, ByDeadline, rows.deadline, now).value;
    var w2 := SweepAll(w1, ByArtifact, rows.artifact, now).value;
    ListedLoses(w, ByDeadline, rows.deadline, now, w1);
    ListedLoses(w1, ByArtifact, rows.artifact, now, w2);
    ListedLoses(w2, ByAttempts, rows.attempts, now, u);
    assert id in rows.deadline <==> Selected(w, ByDeadline, w.jobs[id], now);
    assert id in rows.artifact <==> Selected(w1, ByArtifact, w1.jobs[id], now);
    assert id in rows.attempts <==> Selected(w2, ByAttempts, w2.jobs[id], now);
    SpeechLost(w, w.jobs[id], now);
    ArtifactLostIsGone(w, rows.deadline, now, w1, w.jobs[id]);
  }

  lemma RowAfterPhase(w: World, rows: ClaimRows, now: int, u: World, id: JobId)
    requires RowsOf(rows, w, now) && SweepPhase(w, rows, now) == Ok(u) && id in w.jobs
    ensures id in u.jobs && u.jobs[id] == AfterSweep(w, w.jobs[id], now)
    ensures id in AllRows(rows) <==> SweptAway(w, w.jobs[id], now)
  {
    PhaseLoses(w, rows, now, u, id);
    assert id in AllRows(rows) <==> id in rows.deadline || id in rows.artifact || id in rows.attempts;
    if id in rows.attempts && (id in rows.deadline || id in rows.artifact) {
      assert SweptAway(w, w.jobs[id], now);
    }
  }

  lemma WhatIsHanded(u: World, pick: Option<JobId>, owner: string, lease: int, now: int)
    requires Inv(u) && FirstEligible(u, pick, now)
    ensures Hands(u, if pick.Some? then Take(u, pick.value, owner, lease, now) else u, owner, lease, now, pick)
  {
    forall o | o in u.jobs
      ensures Eligible(u.jobs[o], now) <==> Runnable(u.jobs[o], now)
    {
    }
    if pick.Some? {
      var p := pick.value;
      var v := Take(u, p, owner, lease, now);
      TakeRewrites(u, p, owner, lease, now, v);
      if u.jobs[p].status != Claimed {
        NoneRunning(u, p);
      }
      AttemptTaken(u, p, owner, lease, now, v);
      forall o | o in u.jobs && Runnable(u.jobs[o], now)
        ensures DueFirst(u.jobs[pick.value], u.jobs[o])
      {
        assert Before(u.jobs[pick.value], u.jobs[o]);
      }
    }
  }

  lemma TakeRewrites(u: World, p: JobId, owner: string, lease: int, now: int, v: World)
    requires p in u.jobs && v == Take(u, p, owner, lease, now)
    ensures v == u.(jobs := u.jobs[p := TakenRow(u.jobs[p], p, owner, lease, now)], attempts := v.attempts)
  {
  }

  lemma NoneRunning(u: World, p: JobId)
    requires Inv(u) && p in u.jobs && u.jobs[p].status != Claimed
    ensures forall k | k in u.attempts && k.0 == p :: u.attempts[k].outcome != Running
  {
    forall k | k in u.attempts && k.0 == p
      ensures u.attempts[k].outcome != Running
    {
      OnlyNewestRuns(u, p, k);
    }
  }

  lemma AttemptTaken(u: World, p: JobId, owner: string, lease: int, now: int, v: World)
    requires p in u.jobs && v == Take(u, p, owner, lease, now)
    requires u.jobs[p].status != Claimed ==> forall k | k in u.attempts && k.0 == p :: u.attempts[k].outcome != Running
    ensures AttemptOpened(u, v, p, owner, now)
  {
  }

  lemma WhenClaimed(w: World, owner: string, lease: int, rows: ClaimRows, now: int, v: World)
    requires Inv(w) && RowsOf(rows, w, now) && ClaimJob(w, owner, lease, rows, now) == Ok(v)
    ensures ClaimOutcome(w, v, owner, lease, now, rows.pick)
  {
    var u := SweepPhase(w, rows, now).value;
    ClaimIsTake(w, owner, lease, rows, now);
    SweepPhaseClears(w, rows, now);
    WhenSwept(w, rows, now, u);
    WhatIsHanded(u, rows.pick, owner, lease, now);
  }

  lemma WhenSwept(w: World, rows: ClaimRows, now: int, u: World)
    requires RowsOf(rows, w, now) && SweepPhase(w, rows, now) == Ok(u)
    ensures SweptTo(w, u, now)
  {
    SweepPhaseOutcome(w, rows, now);
    forall id | id in w.jobs
      ensures id in u.jobs && u.jobs[id] == AfterSweep(w, w.jobs[id], now)
      ensures id in AllRows(rows) <==> SweptAway(w, w.jobs[id], now)
    {
      RowAfterPhase(w, rows, now, u, id);
    }
    assert {} + Ids(AllRows(rows)) == SweptJobs(w, now);
  }

  // ---- a recovery pass ------------------------------------------------------------------

  predicate LeaseBehind(j: Job, now: int) {
    j.status == Claimed && j.leaseExpires.Some? && j.leaseExpires.value <= now
  }

  predicate NoChance(j: Job, now: int) {
    Overtime(j, now) || OutOfAttempts(j)
  }

  /** The row of an expired lease after recovery. */
  function RecoveredRow(j: Job, now: int): Job {
    if NoChance(j, now) then LostRow(j, if Overtime(j, now) then "deadline" else "lease_expired", now)
    else j.(status := RetryWait, owner := None, token := None, leaseExpires := None, nextAttempt := now)
  }

  ghost predicate RowsRecovered(r: map<JobId, Job>, s: map<JobId, Job>, order: seq<JobId>, now: int) {
    forall id | id in r :: id in s && s[id] == if id in order then RecoveredRow(r[id], now) else r[id]
  }

  ghost function WithoutChance(w: World, order: seq<JobId>, now: int): set<JobId> {
    set id | id in order && id in w.jobs && NoChance(w.jobs[id], now)
  }

  ghost predicate PassedOver(w: World, u: World, order: seq<JobId>, now: int) {
    && RowsRecovered(w.jobs, u.jobs, order, now)
    && OnlyHistoryAdded(w.jobs, u.jobs, w.ingress)
    && TablesCarried(w, u, WithoutChance(w, order, now))
  }

  /** Exactly the expired leases are recovered, each as its own row says. */
  ghost predicate RecoveryOutcome(w: World, v: World, now: int) {
    && (forall id | id in w.jobs ::
          && id in v.jobs
          && v.jobs[id] == if LeaseBehind(w.jobs[id], now) then RecoveredRow(w.jobs[id], now) else w.jobs[id])
    && OnlyHistoryAdded(w.jobs, v.jobs, w.ingress)
    && TablesCarried(w, v, set id | id in w.jobs && LeaseBehind(w.jobs[id], now) && NoChance(w.jobs[id], now))
  }

  /** The consequences of ending the row, or none. */
  ghost predicate RowFollows(u: World, v: World, j: Job, ends: bool) {
    if ends then exists m :: SameAround(u, m) && Projects(m, v, j) else SameAround(u, v)
  }

  lemma RecoverOneDoes(u: World, id: JobId, now: int, v: World)
    requires id in u.jobs && RecoverOne(u, id, now) == Ok(v)
    ensures RowsRecovered(u.jobs, v.jobs, [id], now) && OnlyHistoryAdded(u.jobs, v.jobs, u.ingress)
    ensures RowFollows(u, v, u.jobs[id], NoChance(u.jobs[id], now))
  {
    var j := u.jobs[id];
    if NoChance(j, now) {
      var m := Recovering(u, id, now);
      RecoveryProjects(u, id, now);
      LostDoes(u, id, RecoveredRow(j, now), now, m, v);
    } else {
      RequeueDoes(u, id, now, v);
    }
  }

  function Recovering(u: World, id: JobId, now: int): World
    requires id in u.jobs
  {
    FinishAttempt(u.(jobs := u.jobs[id := RecoveredRow(u.jobs[id], now)]),
                  id, u.jobs[id].attemptCount, Lost, None, None, now)
  }

  lemma RecoveryProjects(u: World, id: JobId, now: int)
    requires id in u.jobs && NoChance(u.jobs[id], now)
    ensures RecoverOne(u, id, now) == ProjectTerminal(Recovering(u, id, now), u.jobs[id], now)
    ensures Recovering(u, id, now).jobs == u.jobs[id := RecoveredRow(u.jobs[id], now)]
    ensures SameAround(u, Recovering(u, id, now))
  {
  }

  lemma RequeueDoes(u: World, id: JobId, now: int, v: World)
    requires id in u.jobs && RecoverOne(u, id, now) == Ok(v) && !NoChance(u.jobs[id], now)
    ensures v.jobs == u.jobs[id := RecoveredRow(u.jobs[id], now)] && SameAround(u, v)
  {
  }

  lemma LostDoes(u: World, id: JobId, row: Job, now: int, m: World, v: World)
    requires id in u.jobs && m.jobs == u.jobs[id := row] && SameAround(u, m)
    requires ProjectTerminal(m, u.jobs[id], now) == Ok(v)
    ensures (forall o | o in u.jobs :: o in v.jobs && v.jobs[o] == if o == id then row else u.jobs[o])
    ensures OnlyHistoryAdded(u.jobs, v.jobs, u.ingress)
    ensures RowFollows(u, v, u.jobs[id], true)
  {
    assert m.jobs.Keys == u.jobs.Keys;
    ProjectionDoes(m, u.jobs[id], now, v);
    assert SameAround(u, m) && Projects(m, v, u.jobs[id]);
    assert forall o | o in u.jobs :: o in m.jobs;
    assert forall o | o in v.jobs && o !in u.jobs :: o !in m.jobs;
  }

  lemma RowsRecoveredMore(r: map<JobId, Job>, s: map<JobId, Job>, t: map<JobId, Job>, front: seq<JobId>, id: JobId,
                          now: int)
    requires RowsRecovered(r, s, front, now) && RowsRecovered(s, t, [id], now) && id in r && id !in front
    ensures RowsRecovered(r, t, front + [id], now)
  {
  }

  lemma AddedMore(w: World, u: World, v: World, id: JobId, now: int)
    requires OnlyHistoryAdded(w.jobs, u.jobs, w.ingress) && IngressKept(w.ingress, u.ingress) && id in w.jobs
    requires RowsRecovered(u.jobs, v.jobs, [id], now) && OnlyHistoryAdded(u.jobs, v.jobs, u.ingress)
    ensures OnlyHistoryAdded(w.jobs, v.jobs, w.ingress)
  {
    forall o | o in v.jobs && o !in w.jobs
      ensures IsHistoryJob(w.ingress, o, v.jobs[o]) && v.jobs[o].attemptCount < v.jobs[o].maxAttempts
    {
      if o !in u.jobs {
        HistoryJobThrough(w.ingress, u.ingress, o, v.jobs[o]);
      }
    }
  }

  lemma PassedMore(w: World, u: World, v: World, front: seq<JobId>, id: JobId, now: int)
    requires PassedOver(w, u, front, now) && id in w.jobs && id !in front && RecoverOne(u, id, now) == Ok(v)
    ensures PassedOver(w, v, front + [id], now)
  {
    RecoverOneDoes(u, id, now, v);
    RowsRecoveredMore(w.jobs, u.jobs, v.jobs, front, id, now);
    AddedMore(w, u, v, id, now);
    TablesPass(w, u, v, front, id, now);
  }

  lemma TablesPass(w: World, u: World, v: World, front: seq<JobId>, id: JobId, now: int)
    requires TablesCarried(w, u, WithoutChance(w, front, now)) && id in w.jobs
    requires RowFollows(u, v, w.jobs[id], NoChance(w.jobs[id], now))
    ensures TablesCarried(w, v, WithoutChance(w, front + [id], now))
  {
    var done := WithoutChance(w, front, now);
    if NoChance(w.jobs[id], now) {
      var m :| SameAround(u, m) && Projects(m, v, w.jobs[id]);
      CarriedAlong(w, u, m, done);
      TablesCarryOn(w, m, v, done, id);
      assert WithoutChance(w, front + [id], now) == done + {id};
    } else {
      CarriedAlong(w, u, v, done);
      assert WithoutChance(w, front + [id], now) == done;
    }
  }

  lemma {:induction false} PassGoesOver(w: World, order: seq<JobId>, now: int, v: World)
    requires forall i, j | 0 <= i < j < |order| :: order[i] != order[j]
    requires forall id | id in order :: id in w.jobs
    requires RecoverAll(w, order, now) == Ok(v)
    ensures PassedOver(w, v, order, now)
    decreases |order|
  {
    if order == [] {
      CarriedAtFirst(w);
      assert WithoutChance(w, order, now) == {};
    } else {
      var front, id := order[..|order| - 1], order[|order| - 1];
      assert order == front + [id];
      RecoverUnfold(w, order, now);
      var u := RecoverAll(w, front, now).value;
      PassGoesOver(w, front, now, u);
      PassedMore(w, u, v, front, id, now);
    }
  }

  lemma WhenPassReturns(w: World, order: seq<JobId>, now: int, v: World)
    requires ListsExpired(order, w, now) && RecoverAll(w, order, now) == Ok(v)
    ensures RecoveryOutcome(w, v, now)
  {
    PassGoesOver(w, order, now, v);
    forall id | id in w.jobs
      ensures id in order <==> LeaseBehind(w.jobs[id], now)
    {
      assert LeaseExpired(w.jobs[id], now) <==> LeaseBehind(w.jobs[id], now);
    }
    assert WithoutChance(w, order, now) ==
           (set id | id in w.jobs && LeaseBehind(w.jobs[id], now) && NoChance(w.jobs[id], now));
  }

  // ---- every step -----------------------------------------------------------------------

  /** The jobs that ended without success from `w` to `v`. */
  ghost function EndedIn(w: World, v: World): set<JobId> {
    set id | id in w.jobs && id in v.jobs && InProcess(w.jobs[id]) && v.jobs[id].status == FailedPermanent
  }

  lemma OneEnds(w: World, v: World, id: JobId, error: string, kind: Option<string>, now: int)
    requires EndsJob(w, v, id, error, kind, now) && InProcess(w.jobs[id])
    ensures TablesCarried(w, v, EndedIn(w, v))
  {
    assert EndedIn(w, v) == {id};
  }

  lemma NoneEnds(w: World, v: World)
    requires SameAround(w, v)
    requires forall id | id in w.jobs && id in v.jobs && InProcess(w.jobs[id]) :: v.jobs[id].status != FailedPermanent
    ensures TablesCarried(w, v, EndedIn(w, v))
  {
    CarriedAtFirst(w);
    CarriedAlong(w, w, v, {});
    assert EndedIn(w, v) == {};
  }

  lemma RenewConsequences(w: World, c: Claim, lease: int, now: int, v: World, r: Result<bool, Error>)
    requires RenewOutcome(w, v, c, lease, now, r)
    ensures TablesCarried(w, v, EndedIn(w, v))
  {
    if c.job in w.jobs && Mine(w.jobs[c.job], c) && Overtime(w.jobs[c.job], now) && r.Ok? {
      OneEnds(w, v, c.job, "deadline", Some("deadline"), now);
    } else {
      NoneEnds(w, v);
    }
  }

  lemma EffectConsequences(w: World, c: Claim, stage: Option<string>, turn: Option<string>, now: int, v: World,
                           r: Result<bool, Error>)
    requires EffectOutcome(w, v, c, stage, turn, now, r)
    ensures TablesCarried(w, v, EndedIn(w, v))
  {
    if v == w {
      NoneEnds(w, v);
    } else {
      OneEnds(w, v, c.job, "deadline", Some("deadline"), now);
    }
  }

  lemma CompleteConsequences(w: World, c: Claim, receipt: Receipt, now: int, v: World, r: Result<(), Error>)
    requires CompleteOutcome(w, v, c, receipt, now, r)
    ensures TablesCarried(w, v, EndedIn(w, v))
  {
    if v == w {
      NoneEnds(w, v);
    } else if Overtime(w.jobs[c.job], now) {
      OneEnds(w, v, c.job, "deadline", Some("deadline"), now);
    } else {
      NoneEnds(w, v);
    }
  }

  lemma FailConsequences(w: World, c: Claim, error: string, retryable: bool, retryAfter: Option<nat>, now: int,
                         v: World, r: Result<(), Error>)
    requires FailOutcome(w, v, c, error, retryable, retryAfter, now, r)
    ensures TablesCarried(w, v, EndedIn(w, v))
  {
    if v == w {
      NoneEnds(w, v);
    } else {
      var j := w.jobs[c.job];
      if Overtime(j, now) {
        OneEnds(w, v, c.job, "deadline", Some("deadline"), now);
      } else if retryable && j.attemptCount < j.maxAttempts {
        NoneEnds(w, v);
      } else {
        OneEnds(w, v, c.job, error, Some(error), now);
      }
    }
  }

  lemma EnqueueConsequences(w: World, id: JobId, s: Spec, fence: Option<(Claim, string)>, now: int, v: World)
    requires EnqueueOutcome(w, v, id, s, fence, now, true)
    ensures TablesCarried(w, v, EndedIn(w, v))
  {
    NoneEnds(w, v);
  }

  lemma ClaimConsequences(w: World, owner: string, lease: int, now: int, v: World, pick: Option<JobId>)
    requires ClaimOutcome(w, v, owner, lease, now, pick)
    ensures TablesCarried(w, v, EndedIn(w, v))
  {
    var u: World :| SweptTo(w, u, now) && Hands(u, v, owner, lease, now, pick);
    HandedCarries(w, u, v, owner, lease, now, pick);
    HandedEnds(w, u, v, owner, lease, now, pick);
  }

  lemma HandedCarries(w: World, u: World, v: World, owner: string, lease: int, now: int, pick: Option<JobId>)
    requires TablesCarried(w, u, SweptJobs(w, now)) && Hands(u, v, owner, lease, now, pick)
    ensures TablesCarried(w, v, SweptJobs(w, now))
  {
    assert SameAround(u, v);
    CarriedAlong(w, u, v, SweptJobs(w, now));
  }

  lemma HandedEnds(w: World, u: World, v: World, owner: string, lease: int, now: int, pick: Option<JobId>)
    requires forall id | id in w.jobs :: id in u.jobs && u.jobs[id] == AfterSweep(w, w.jobs[id], now)
    requires Hands(u, v, owner, lease, now, pick)
    ensures EndedIn(w, v) == SweptJobs(w, now)
  {
    forall id | id in w.jobs
      ensures id in EndedIn(w, v) <==> SweptAway(w, w.jobs[id], now)
    {
      assert id in v.jobs && (pick == Some(id) || v.jobs[id] == u.jobs[id]);
    }
  }

  lemma RecoveryConsequences(w: World, now: int, v: World)
    requires RecoveryOutcome(w, v, now)
    ensures TablesCarried(w, v, EndedIn(w, v))
  {
    assert EndedIn(w, v) == (set id | id in w.jobs && LeaseBehind(w.jobs[id], now) && NoChance(w.jobs[id], now));
  }

  /**
   * Whatever step of the ledger commits, beside the ledger it writes exactly the consequences of the jobs it ended:
   * their waiting decisions fail, their open turns get the outcome of their stage, their pending speech expires.
   */
  lemma StepConsequences(w: World, s: Step, v: World)
    requires Inv(w) && Commit(w, s) == Ok(v) && !s.Environment?
    ensures TablesCarried(w, v, EndedIn(w, v))
  {
    match s
    case Enqueue(id, spec, fence, now) =>
      WhenEnqueued(w, id, spec, fence, now);
      EnqueueConsequences(w, id, spec, fence, now, v);
    case ClaimStep(owner, lease, rows, now) =>
      WhenClaimed(w, owner, lease, rows, now, v);
      ClaimConsequences(w, owner, lease, now, v, rows.pick);
    case Renew(c, lease, now) =>
      var r := Ok(RenewLease(w, c, lease, now).value.1);
      WhenRenewed(w, c, lease, now, v, r);
      RenewConsequences(w, c, lease, now, v, r);
    case Effect(c, stage, turn, now) =>
      var r := Ok(AssertEffect(w, c, stage, turn, now).value.1);
      WhenEffectPasses(w, c, stage, turn, now, v, r);
      EffectConsequences(w, c, stage, turn, now, v, r);
    case Complete(c, receipt, now) =>
      WhenCompleted(w, c, receipt, now, v, Ok(()));
      CompleteConsequences(w, c, receipt, now, v, Ok(()));
    case Fail(c, error, retryable, retryAfter, now) =>
      WhenFailed(w, c, error, retryable, retryAfter, now, v, Ok(()));
      FailConsequences(w, c, error, retryable, retryAfter, now, v, Ok(()));
    case Recover(order, now) =>
      WhenPassReturns(w, order, now, v);
      RecoveryConsequences(w, now, v);
  }

  /** The ledger itself never delivers a decision, nor reopens a turn: it only fails the one and closes the other. */
  lemma {:induction false} LedgerNeverDelivers(w: World, steps: seq<Step>, k: (string, nat), t: string)
    requires Inv(w) && forall s | s in steps :: !s.Environment?
    ensures var v := Run(w, steps);
            && (k in v.decisions <==> k in w.decisions)
            && (k in w.decisions ==>
                  v.decisions[k] == w.decisions[k] || (Waits(w.decisions[k]) && v.decisions[k] == DecisionFailed))
            && (t in v.turns <==> t in w.turns)
            && (t in w.turns && w.turns[t].finalOutcome.Some? ==> v.turns[t] == w.turns[t])
    decreases |steps|
  {
    if steps != [] {
      var front, s := steps[..|steps| - 1], steps[|steps| - 1];
      LedgerNeverDelivers(w, front, k, t);
      RunKeeps(w, front);
      var u := Run(w, front);
      assert s in steps;
      if Commit(u, s).Ok? {
        var v := Commit(u, s).value;
        StepConsequences(u, s, v);
        assert k in v.decisions.Keys <==> k in u.decisions.Keys;
        assert t in v.turns.Keys <==> t in u.turns.Keys;
      }
    }
  }
}
