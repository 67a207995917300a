/**
 * When ending a job raises, and what the sweeps of a claim leave behind, row by
 * row and in any order.
 */
module WorkerSweeps {
  import opened Wrappers
  import opened WorkerLedger
  import opened WorkerInvariant

  // ---- the one way a projection raises ------------------------------------------------

  /** The row is the history job of turn `t`, as far as an enqueue compares rows. */
  predicate HistoryJobOf(j: Job, t: string, i: Ingress) {
    && j.kind == HISTORY_KIND && j.stage == "hermes" && j.chain.None?
    && j.payload == Payload(Some(t), Some(i.target), None, None, Some(i.submission), "")
  }

  /** The history key of the turn's submission is held by another job. */
  predicate HeldByOther(jobs: map<JobId, Job>, ingress: map<string, Ingress>, t: string) {
    && t in ingress
    && var k := HistoryKey(ingress[t].submission);
       k in jobs && !HistoryJobOf(jobs[k], t, ingress[t])
  }

  predicate OpenTurn(turns: map<string, Turn>, t: string) {
    t in turns && turns[t].finalOutcome.None?
  }

  /** Ending this job gives turn `t` its final outcome, unless it has one. */
  predicate Closes(j: Job, t: string) {
    && j.stage != "tts" && j.kind != "eavesdrop" && j.kind != HISTORY_KIND
    && (j.payload.segment.None? || j.payload.sessionId.None?)
    && j.payload.turnId == Some(t)
  }

  /** Ending this job would enqueue a history job whose key another job holds. */
  predicate HistoryTaken(w: World, j: Job) {
    && j.stage == "hermes" && j.payload.turnId.Some?
    && var t := j.payload.turnId.value;
       Closes(j, t) && OpenTurn(w.turns, t) && HeldByOther(w.jobs, w.ingress, t)
  }

  /** A projection raises exactly then. */
  lemma ProjectionRaises(w: World, job: Job, now: int)
    ensures ProjectTerminal(w, job, now).Err? <==> HistoryTaken(w, job)
    ensures ProjectTerminal(w, job, now).Err? ==> ProjectTerminal(w, job, now).error == Conflict
  {
  }

  ghost predicate SameRequests(jobs: map<JobId, Job>, later: map<JobId, Job>) {
    later.Keys == jobs.Keys && forall id | id in jobs :: SameRequest(jobs[id], later[id])
  }

  lemma TakenFrame(w: World, u: World, job: Job)
    requires u.turns == w.turns && u.ingress == w.ingress && SameRequests(w.jobs, u.jobs)
    ensures HistoryTaken(u, job) <==> HistoryTaken(w, job)
  {
    if job.payload.turnId.Some? && job.payload.turnId.value in w.ingress {
      var k := HistoryKey(w.ingress[job.payload.turnId.value].submission);
      assert k in w.jobs.Keys <==> k in u.jobs.Keys;
    }
  }

  function Ending(w: World, id: JobId, error: string, now: int): World
    requires id in w.jobs
  {
    w.(jobs := w.jobs[id := FailedRow(w.jobs[id], error, now)],
       attempts := CloseRunning(w.attempts, id, Lost, Some(error), now))
  }

  /** Ending a job from outside raises exactly then, too. */
  lemma TerminaliseRaises(w: World, id: JobId, error: string, now: int)
    requires id in w.jobs
    ensures Terminalise(w, id, error, now).Err? <==> HistoryTaken(w, w.jobs[id])
  {
    var u := Ending(w, id, error, now);
    assert u.jobs.Keys == w.jobs.Keys;
    TakenFrame(w, u, w.jobs[id]);
    ProjectionRaises(u, w.jobs[id], now);
  }

  /** Recovery ends the job instead of requeueing it. */
  predicate EndsInRecovery(j: Job, now: int) {
    Reached(j.deadline, now) || j.attemptCount >= j.maxAttempts
  }

  /** So does recovery of an expired lease that ends its job. */
  lemma RecoveryRaises(w: World, id: JobId, now: int)
    requires id in w.jobs
    ensures RecoverOne(w, id, now).Err? <==> EndsInRecovery(w.jobs[id], now) && HistoryTaken(w, w.jobs[id])
  {
    var job := w.jobs[id];
    if EndsInRecovery(job, now) {
      var row := FailedRow(job, if Reached(job.deadline, now) then "deadline" else "lease_expired", now);
      var m := FinishAttempt(w.(jobs := w.jobs[id := row]), id, job.attemptCount, Lost, None, None, now);
      assert m.jobs.Keys == w.jobs.Keys;
      TakenFrame(w, m, job);
      ProjectionRaises(m, job, now);
    }
  }

  // ---- what a projection does -----------------------------------------------------------

  predicate SameIngress(i: Ingress, j: Ingress) {
    i.submission == j.submission && i.target == j.target
  }

  /** Ingress rows keep their identity; only their status may differ. */
  ghost predicate IngressKept(ingress: map<string, Ingress>, later: map<string, Ingress>) {
    later.Keys == ingress.Keys && forall t | t in ingress :: SameIngress(ingress[t], later[t])
  }

  ghost predicate IsHistoryJob(ingress: map<string, Ingress>, id: JobId, j: Job) {
    exists t | t in ingress :: id == HistoryKey(ingress[t].submission) && HistoryJobOf(j, t, ingress[t])
  }

  /** Every job that is new is the history job of some turn, with its attempts ahead of it. */
  ghost predicate OnlyHistoryAdded(jobs: map<JobId, Job>, later: map<JobId, Job>, ingress: map<string, Ingress>) {
    forall id | id in later && id !in jobs ::
      IsHistoryJob(ingress, id, later[id]) && later[id].attemptCount < later[id].maxAttempts
  }

  /** Ending this job expires artifact `a`, if it is pending. */
  predicate Kills(j: Job, artifacts: map<string, Artifact>, a: string) {
    && j.stage == "tts" && j.payload.artifactId == Some(a) && a in artifacts
    && (j.payload.turnId.None? || j.payload.turnId.value == artifacts[a].turnId)
  }

  function ArtifactAfter(a: Artifact, killed: bool): Artifact {
    if killed && a.state == ArtifactPending then a.(state := ArtifactExpired) else a
  }

  predicate Waits(d: DecisionState) {
    d == Queued || d == InProgress || d == DecisionPending
  }

  /** Ending this job fails the decision at `k`, if it is waiting. */
  predicate Fails(j: Job, k: (string, nat)) {
    j.stage != "tts" && j.payload.sessionId == Some(k.0) && j.payload.segment == Some(k.1)
  }

  function DecisionAfter(d: DecisionState, failed: bool): DecisionState {
    if failed && Waits(d) then DecisionFailed else d
  }

  function OutcomeOf(stage: string): string {
    match stage
    case "hermes" => "hermes"
    case "asr" => "asr"
    case _ => "routing"
  }

  function TurnAfter(turns: map<string, Turn>, j: Job, t: string): Turn
    requires t in turns
  {
    if OpenTurn(turns, t) && Closes(j, t) then Turn(Some(OutcomeOf(j.stage))) else turns[t]
  }

  ghost predicate TurnsProject(w: World, v: World, j: Job) {
    v.turns.Keys == w.turns.Keys && forall t | t in w.turns :: v.turns[t] == TurnAfter(w.turns, j, t)
  }

  ghost predicate ArtifactsProject(w: World, v: World, j: Job) {
    && v.artifacts.Keys == w.artifacts.Keys
    && forall a | a in w.artifacts :: v.artifacts[a] == ArtifactAfter(w.artifacts[a], Kills(j, w.artifacts, a))
  }

  ghost predicate DecisionsProject(w: World, v: World, j: Job) {
    && v.decisions.Keys == w.decisions.Keys
    && forall k | k in w.decisions :: v.decisions[k] == DecisionAfter(w.decisions[k], Fails(j, k))
  }

  ghost predicate IngressProject(w: World, v: World, j: Job) {
    && IngressKept(w.ingress, v.ingress)
    && forall t | t in w.ingress ::
         v.ingress[t].failed <==> w.ingress[t].failed || (j.stage == "hermes" && OpenTurn(w.turns, t) && Closes(j, t))
  }

  /** The history job of the turn's submission is there if a Hermes job has closed the turn. */
  ghost predicate HistoryProject(w: World, v: World, j: Job) {
    forall t | t in w.ingress && j.stage == "hermes" && OpenTurn(w.turns, t) && Closes(j, t) ::
      HistoryKey(w.ingress[t].submission) in v.jobs
  }

  /** What ending job `j` writes beside the job's own row. */
  ghost predicate Projects(w: World, v: World, j: Job) {
    && HistoryProject(w, v, j)
    && TurnsProject(w, v, j) && ArtifactsProject(w, v, j) && DecisionsProject(w, v, j) && IngressProject(w, v, j)
    && (forall id | id in w.jobs :: id in v.jobs && v.jobs[id] == w.jobs[id])
    && OnlyHistoryAdded(w.jobs, v.jobs, w.ingress)
  }

  /**
   * For every job, whatever it carries: the turn, the artifact, the decision and the ingress row of exactly that job.
   */
  lemma ProjectionDoes(w: World, j: Job, now: int, v: World)
    requires ProjectTerminal(w, j, now) == Ok(v)
    ensures Projects(w, v, j)
  {
    if j.stage == "tts" {
      ArtifactProjectionDoes(w, j, v);
    } else if ForEavesdrop(j) {
      DecisionProjectionDoes(w, j, v);
    } else {
      NoDecisionDoes(w, v, j);
      if !OwesFinal(w, j) {
        QuietProjectionDoes(w, j, v);
      } else {
        var t := j.payload.turnId.value;
        if j.stage == "hermes" && t in w.ingress {
          HistoryProjectionDoes(w, j, now, v, t);
        } else {
          FinalProjectionDoes(w, j, now, v, t);
        }
      }
    }
  }

  lemma ArtifactProjectionDoes(w: World, j: Job, v: World)
    requires j.stage == "tts" && v == ProjectArtifact(w, j.payload)
    ensures Projects(w, v, j)
  {
    assert ArtifactsProject(w, v, j);
    assert v == w.(artifacts := v.artifacts);
  }

  lemma DecisionProjectionDoes(w: World, j: Job, v: World)
    requires j.stage != "tts" && ForEavesdrop(j) && v == ProjectDecision(w, j.payload)
    ensures Projects(w, v, j)
  {
    assert DecisionsProject(w, v, j);
    assert v == w.(decisions := v.decisions);
  }

  lemma NoDecisionDoes(w: World, v: World, j: Job)
    requires j.stage != "tts" && !ForEavesdrop(j)
    ensures v.decisions == w.decisions ==> DecisionsProject(w, v, j)
  {
  }

  lemma QuietProjectionDoes(w: World, j: Job, v: World)
    requires j.stage != "tts" && !ForEavesdrop(j) && !OwesFinal(w, j) && v == w
    requires v.decisions == w.decisions ==> DecisionsProject(w, v, j)
    ensures Projects(w, v, j)
  {
  }

  lemma FinalProjectionDoes(w: World, j: Job, now: int, v: World, t: string)
    requires ProjectTerminal(w, j, now) == Ok(v) && j.stage != "tts" && !ForEavesdrop(j) && OwesFinal(w, j)
    requires j.payload.turnId == Some(t) && !(j.stage == "hermes" && t in w.ingress)
    requires v.decisions == w.decisions ==> DecisionsProject(w, v, j)
    ensures Projects(w, v, j)
  {
    assert v == w.(turns := w.turns[t := Turn(Some(OutcomeOf(j.stage)))]);
    TurnCloses(w, v, j, t);
  }

  lemma TurnCloses(w: World, v: World, j: Job, t: string)
    requires j.stage != "tts" && !ForEavesdrop(j) && OwesFinal(w, j) && j.payload.turnId == Some(t)
    requires v.turns == w.turns[t := Turn(Some(OutcomeOf(j.stage)))]
    ensures TurnsProject(w, v, j)
  {
    assert v.turns.Keys == w.turns.Keys;
  }

  lemma HistoryProjectionDoes(w: World, j: Job, now: int, v: World, t: string)
    requires ProjectTerminal(w, j, now) == Ok(v) && j.stage == "hermes" && !ForEavesdrop(j) && OwesFinal(w, j)
    requires j.payload.turnId == Some(t) && t in w.ingress
    requires v.decisions == w.decisions ==> DecisionsProject(w, v, j)
    ensures Projects(w, v, j)
  {
    var i := w.ingress[t];
    assert v == w.(turns := w.turns[t := Turn(Some("hermes"))],
                   ingress := w.ingress[t := i.(failed := true)], jobs := v.jobs);
    TurnCloses(w, v, j, t);
    IngressFails(w, v, j, t);
    HistoryAppears(w, j, now, v, t);
  }

  lemma IngressFails(w: World, v: World, j: Job, t: string)
    requires j.stage == "hermes" && !ForEavesdrop(j) && OwesFinal(w, j) && j.payload.turnId == Some(t) && t in w.ingress
    requires v.ingress == w.ingress[t := w.ingress[t].(failed := true)]
    ensures IngressProject(w, v, j)
  {
    assert v.ingress.Keys == w.ingress.Keys;
  }

  lemma HistoryAppears(w: World, j: Job, now: int, v: World, t: string)
    requires ProjectTerminal(w, j, now) == Ok(v) && j.stage == "hermes" && !ForEavesdrop(j) && OwesFinal(w, j)
    requires j.payload.turnId == Some(t) && t in w.ingress
    ensures forall id | id in w.jobs :: id in v.jobs && v.jobs[id] == w.jobs[id]
    ensures OnlyHistoryAdded(w.jobs, v.jobs, w.ingress) && HistoryProject(w, v, j)
  {
    var i := w.ingress[t];
    assert HistoryKey(i.submission) in v.jobs;
    forall id | id in v.jobs && id !in w.jobs
      ensures IsHistoryJob(w.ingress, id, v.jobs[id]) && v.jobs[id].attemptCount < v.jobs[id].maxAttempts
    {
      assert id == HistoryKey(i.submission) && HistoryJobOf(v.jobs[id], t, i);
    }
  }

  // ---- what the jobs ended so far have done -------------------------------------------------

  ghost predicate ClosedBy(w: World, done: set<JobId>, t: string) {
    exists id | id in done && id in w.jobs :: Closes(w.jobs[id], t)
  }

  ghost predicate KilledBy(w: World, done: set<JobId>, a: string) {
    exists id | id in done && id in w.jobs :: Kills(w.jobs[id], w.artifacts, a)
  }

  ghost predicate FailedBy(w: World, done: set<JobId>, k: (string, nat)) {
    exists id | id in done && id in w.jobs :: Fails(w.jobs[id], k)
  }

  /** One of these jobs has given turn `t` the outcome it has now. */
  ghost predicate OutcomeBy(w: World, turn: Turn, done: set<JobId>, t: string) {
    exists id | id in done && id in w.jobs ::
      Closes(w.jobs[id], t) && turn == Turn(Some(OutcomeOf(w.jobs[id].stage)))
  }

  ghost predicate TurnsCarried(w: World, u: World, done: set<JobId>) {
    && u.turns.Keys == w.turns.Keys
    && forall t | t in w.turns ::
         if OpenTurn(w.turns, t) && ClosedBy(w, done, t) then OutcomeBy(w, u.turns[t], done, t)
         else u.turns[t] == w.turns[t]
  }

  ghost predicate ArtifactsCarried(w: World, u: World, done: set<JobId>) {
    && u.artifacts.Keys == w.artifacts.Keys
    && forall a | a in w.artifacts :: u.artifacts[a] == ArtifactAfter(w.artifacts[a], KilledBy(w, done, a))
  }

  ghost predicate DecisionsCarried(w: World, u: World, done: set<JobId>) {
    && u.decisions.Keys == w.decisions.Keys
    && forall k | k in w.decisions :: u.decisions[k] == DecisionAfter(w.decisions[k], FailedBy(w, done, k))
  }

  /** A submission is marked failed when its turn was closed by a Hermes job. */
  ghost predicate IngressCarried(w: World, u: World) {
    && IngressKept(w.ingress, u.ingress)
    && forall t | t in w.ingress ::
         u.ingress[t].failed <==> w.ingress[t].failed || (OpenTurn(w.turns, t) && HermesTurn(u.turns, t))
  }

  /** Every turn that a Hermes job has closed meanwhile has its submission's history job. */
  ghost predicate HistoryCarried(w: World, u: World) {
    forall t | t in w.ingress && OpenTurn(w.turns, t) && HermesTurn(u.turns, t) ::
      HistoryKey(w.ingress[t].submission) in u.jobs
  }

  predicate HermesTurn(turns: map<string, Turn>, t: string) {
    t in turns && turns[t] == Turn(Some("hermes"))
  }

  /** Beside the ledger, from `w` to `u` exactly the consequences of ending the jobs in `done` have come about. */
  ghost predicate TablesCarried(w: World, u: World, done: set<JobId>) {
    && TurnsCarried(w, u, done) && ArtifactsCarried(w, u, done) && DecisionsCarried(w, u, done)
    && IngressCarried(w, u) && HistoryCarried(w, u)
  }

  ghost predicate JobsCarried(w: World, u: World, done: set<JobId>) {
    && done <= w.jobs.Keys
    && (forall id | id in w.jobs :: id in u.jobs && SameRequest(w.jobs[id], u.jobs[id]))
    && (forall id | id in w.jobs && id !in done :: u.jobs[id] == w.jobs[id])
    && (forall id | id in done && id in w.jobs :: w.jobs[id].status.Active() && u.jobs[id].status == FailedPermanent)
  }

  /** From `w` to `u` the jobs in `done` have ended, in whatever order, and nothing else has happened. */
  ghost predicate Carried(w: World, u: World, done: set<JobId>) {
    && TablesCarried(w, u, done)
    && JobsCarried(w, u, done)
    && OnlyHistoryAdded(w.jobs, u.jobs, w.ingress)
  }

  lemma CarriedAtFirst(w: World)
    ensures Carried(w, w, {})
  {
  }

  lemma TurnsCarryOn(w: World, u: World, v: World, done: set<JobId>, id: JobId)
    requires TurnsCarried(w, u, done) && id in w.jobs && TurnsProject(u, v, w.jobs[id])
    ensures TurnsCarried(w, v, done + {id})
  {
    forall t | t in w.turns
      ensures if OpenTurn(w.turns, t) && ClosedBy(w, done + {id}, t) then OutcomeBy(w, v.turns[t], done + {id}, t)
              else v.turns[t] == w.turns[t]
    {
      assert t in u.turns.Keys;
      TurnCarriesOn(w, u.turns, v.turns, done, id, t);
    }
  }

  lemma TurnCarriesOn(w: World, u: map<string, Turn>, v: map<string, Turn>, done: set<JobId>, id: JobId, t: string)
    requires id in w.jobs && t in w.turns && t in u && t in v && v[t] == TurnAfter(u, w.jobs[id], t)
    requires if OpenTurn(w.turns, t) && ClosedBy(w, done, t) then OutcomeBy(w, u[t], done, t) else u[t] == w.turns[t]
    ensures if OpenTurn(w.turns, t) && ClosedBy(w, done + {id}, t) then OutcomeBy(w, v[t], done + {id}, t)
            else v[t] == w.turns[t]
  {
    assert ClosedBy(w, done + {id}, t) <==> ClosedBy(w, done, t) || Closes(w.jobs[id], t) by {
      assert id in done + {id};
    }
    if OpenTurn(w.turns, t) && ClosedBy(w, done, t) {
      var o :| o in done && o in w.jobs && Closes(w.jobs[o], t) && u[t] == Turn(Some(OutcomeOf(w.jobs[o].stage)));
      assert o in done + {id} && v[t] == u[t];
    } else if OpenTurn(w.turns, t) && Closes(w.jobs[id], t) {
      assert id in done + {id};
    }
  }

  lemma ArtifactsCarryOn(w: World, u: World, v: World, done: set<JobId>, id: JobId)
    requires ArtifactsCarried(w, u, done) && id in w.jobs && ArtifactsProject(u, v, w.jobs[id])
    ensures ArtifactsCarried(w, v, done + {id})
  {
    forall a | a in w.artifacts
      ensures v.artifacts[a] == ArtifactAfter(w.artifacts[a], KilledBy(w, done + {id}, a))
    {
      assert a in u.artifacts.Keys && u.artifacts[a].turnId == w.artifacts[a].turnId;
      assert Kills(w.jobs[id], u.artifacts, a) <==> Kills(w.jobs[id], w.artifacts, a);
      if Kills(w.jobs[id], w.artifacts, a) {
        assert id in done + {id};
      }
      assert KilledBy(w, done + {id}, a) <==> KilledBy(w, done, a) || Kills(w.jobs[id], w.artifacts, a);
    }
  }

  lemma DecisionsCarryOn(w: World, u: World, v: World, done: set<JobId>, id: JobId)
    requires DecisionsCarried(w, u, done) && id in w.jobs && DecisionsProject(u, v, w.jobs[id])
    ensures DecisionsCarried(w, v, done + {id})
  {
    forall k | k in w.decisions
      ensures v.decisions[k] == DecisionAfter(w.decisions[k], FailedBy(w, done + {id}, k))
    {
      assert k in u.decisions.Keys;
      if Fails(w.jobs[id], k) {
        assert id in done + {id};
      }
      assert FailedBy(w, done + {id}, k) <==> FailedBy(w, done, k) || Fails(w.jobs[id], k);
    }
  }

  lemma IngressCarryOn(w: World, u: World, v: World, done: set<JobId>, id: JobId)
    requires IngressCarried(w, u) && TurnsCarried(w, u, done) && id in w.jobs
    requires IngressProject(u, v, w.jobs[id]) && TurnsProject(u, v, w.jobs[id])
    ensures IngressCarried(w, v)
  {
    IngressKeptTwice(w.ingress, u.ingress, v.ingress);
    forall t | t in w.ingress
      ensures v.ingress[t].failed <==> w.ingress[t].failed || (OpenTurn(w.turns, t) && HermesTurn(v.turns, t))
    {
      assert t in u.ingress.Keys;
      assert t in w.turns.Keys <==> t in u.turns.Keys;
    }
  }

  lemma HistoryCarryOn(w: World, u: World, v: World, done: set<JobId>, id: JobId)
    requires IngressCarried(w, u) && HistoryCarried(w, u) && TurnsCarried(w, u, done) && id in w.jobs
    requires TurnsProject(u, v, w.jobs[id]) && HistoryProject(u, v, w.jobs[id])
    requires forall o | o in u.jobs :: o in v.jobs
    ensures HistoryCarried(w, v)
  {
    forall t | t in w.ingress && OpenTurn(w.turns, t) && HermesTurn(v.turns, t)
      ensures HistoryKey(w.ingress[t].submission) in v.jobs
    {
      assert t in u.ingress.Keys && SameIngress(w.ingress[t], u.ingress[t]);
      assert t in u.turns.Keys;
    }
  }

  lemma TablesCarryOn(w: World, u: World, v: World, done: set<JobId>, id: JobId)
    requires TablesCarried(w, u, done) && id in w.jobs && Projects(u, v, w.jobs[id])
    ensures TablesCarried(w, v, done + {id})
  {
    TurnsCarryOn(w, u, v, done, id);
    ArtifactsCarryOn(w, u, v, done, id);
    DecisionsCarryOn(w, u, v, done, id);
    IngressCarryOn(w, u, v, done, id);
    HistoryCarryOn(w, u, v, done, id);
  }

  /** The tables beside the ledger are the same, and no job is gone. */
  predicate SameAround(u: World, m: World) {
    && u.jobs.Keys <= m.jobs.Keys
    && m.turns == u.turns && m.artifacts == u.artifacts && m.decisions == u.decisions && m.ingress == u.ingress
  }

  lemma CarriedAlong(w: World, u: World, m: World, done: set<JobId>)
    requires TablesCarried(w, u, done) && SameAround(u, m)
    ensures TablesCarried(w, m, done)
  {
    assert forall id | id in u.jobs :: id in m.jobs.Keys;
  }

  lemma IngressKeptTwice(a: map<string, Ingress>, b: map<string, Ingress>, c: map<string, Ingress>)
    requires IngressKept(a, b) && IngressKept(b, c)
    ensures IngressKept(a, c)
  {
    forall t | t in a
      ensures SameIngress(a[t], c[t])
    {
      assert t in b.Keys;
    }
  }

  lemma HistoryJobThrough(a: map<string, Ingress>, b: map<string, Ingress>, id: JobId, j: Job)
    requires IngressKept(a, b) && IsHistoryJob(b, id, j)
    ensures IsHistoryJob(a, id, j)
  {
    var t :| t in b && id == HistoryKey(b[t].submission) && HistoryJobOf(j, t, b[t]);
    assert t in a.Keys && SameIngress(a[t], b[t]);
    assert HistoryJobOf(j, t, a[t]);
  }

  lemma AddedCarryOn(w: World, m: World, v: World)
    requires OnlyHistoryAdded(w.jobs, m.jobs, w.ingress) && IngressKept(w.ingress, m.ingress)
    requires forall o | o in m.jobs :: o in v.jobs && v.jobs[o] == m.jobs[o]
    requires OnlyHistoryAdded(m.jobs, v.jobs, m.ingress)
    ensures OnlyHistoryAdded(w.jobs, v.jobs, w.ingress)
  {
    forall o | o in v.jobs && o !in w.jobs
      ensures IsHistoryJob(w.ingress, o, v.jobs[o]) && v.jobs[o].attemptCount < v.jobs[o].maxAttempts
    {
      if o !in m.jobs {
        HistoryJobThrough(w.ingress, m.ingress, o, v.jobs[o]);
      }
    }
  }

  lemma RowEnds(w: World, u: World, m: World, done: set<JobId>, id: JobId)
    requires JobsCarried(w, u, done) && OnlyHistoryAdded(w.jobs, u.jobs, w.ingress)
    requires id in w.jobs && id in u.jobs && m.jobs.Keys == u.jobs.Keys
    requires forall o | o in u.jobs && o != id :: m.jobs[o] == u.jobs[o]
    requires w.jobs[id].status.Active() && SameRequest(u.jobs[id], m.jobs[id]) && m.jobs[id].status == FailedPermanent
    ensures JobsCarried(w, m, done + {id}) && OnlyHistoryAdded(w.jobs, m.jobs, w.ingress)
  {
    forall o | o in m.jobs && o !in w.jobs
      ensures IsHistoryJob(w.ingress, o, m.jobs[o]) && m.jobs[o].attemptCount < m.jobs[o].maxAttempts
    {
      assert o in u.jobs.Keys;
    }
  }

  lemma JobsCarryOn(w: World, u: World, m: World, v: World, done: set<JobId>, id: JobId)
    requires JobsCarried(w, u, done) && OnlyHistoryAdded(w.jobs, u.jobs, w.ingress) && IngressKept(w.ingress, u.ingress)
    requires id in w.jobs && id in u.jobs && m.ingress == u.ingress && m.jobs.Keys == u.jobs.Keys
    requires forall o | o in u.jobs && o != id :: m.jobs[o] == u.jobs[o]
    requires w.jobs[id].status.Active() && SameRequest(u.jobs[id], m.jobs[id]) && m.jobs[id].status == FailedPermanent
    requires forall o | o in m.jobs :: o in v.jobs && v.jobs[o] == m.jobs[o]
    requires OnlyHistoryAdded(m.jobs, v.jobs, m.ingress)
    ensures JobsCarried(w, v, done + {id}) && OnlyHistoryAdded(w.jobs, v.jobs, w.ingress)
  {
    RowEnds(w, u, m, done, id);
    AddedCarryOn(w, m, v);
  }

  lemma CarryOn(w: World, u: World, done: set<JobId>, id: JobId, error: string, now: int, v: World)
    requires Carried(w, u, done) && id in w.jobs && id !in done && id in u.jobs && w.jobs[id].status.Active()
    requires Terminalise(u, id, error, now) == Ok(v)
    ensures Carried(w, v, done + {id})
  {
    var j := w.jobs[id];
    var m := Ending(u, id, error, now);
    assert m.jobs.Keys == u.jobs.Keys;
    ProjectionDoes(m, j, now, v);
    CarriedAlong(w, u, m, done);
    TablesCarryOn(w, m, v, done, id);
    JobsCarryOn(w, u, m, v, done, id);
  }

  // ---- when a sweep raises -----------------------------------------------------------------

  /** The keys of session_ingress: a submission belongs to one turn. */
  ghost predicate DistinctSubmissions(ingress: map<string, Ingress>) {
    forall t, o | t in ingress && o in ingress :: ingress[t].submission == ingress[o].submission ==> t == o
  }

  lemma HistoryKeysDiffer(a: string, b: string)
    requires HistoryKey(a) == HistoryKey(b)
    ensures a == b
  {
    assert HistoryKey(a)[15..] == a && HistoryKey(b)[15..] == b;
  }

  lemma HeldStays(w: World, u: World, done: set<JobId>, t: string)
    requires Carried(w, u, done) && DistinctSubmissions(w.ingress)
    ensures HeldByOther(u.jobs, u.ingress, t) <==> HeldByOther(w.jobs, w.ingress, t)
  {
    assert t in u.ingress.Keys <==> t in w.ingress.Keys;
    if t in w.ingress {
      assert SameIngress(w.ingress[t], u.ingress[t]);
      var k := HistoryKey(w.ingress[t].submission);
      if k !in w.jobs && k in u.jobs {
        var o :| o in w.ingress && k == HistoryKey(w.ingress[o].submission) && HistoryJobOf(u.jobs[k], o, w.ingress[o]);
        HistoryKeysDiffer(w.ingress[t].submission, w.ingress[o].submission);
      }
    }
  }

  /** Job `id` cannot be ended once the jobs in `done` have been: none of them has closed its turn. */
  ghost predicate Stuck(w: World, done: set<JobId>, id: JobId) {
    id in w.jobs && HistoryTaken(w, w.jobs[id]) && !ClosedBy(w, done, w.jobs[id].payload.turnId.value)
  }

  lemma EndingRaises(w: World, u: World, done: set<JobId>, id: JobId, error: string, now: int)
    requires Carried(w, u, done) && DistinctSubmissions(w.ingress) && id in w.jobs && id !in done && id in u.jobs
    ensures Terminalise(u, id, error, now).Err? <==> Stuck(w, done, id)
  {
    TerminaliseRaises(u, id, error, now);
    var j := w.jobs[id];
    assert u.jobs[id] == j;
    if j.payload.turnId.Some? {
      HeldStays(w, u, done, j.payload.turnId.value);
      assert j.payload.turnId.value in u.turns.Keys <==> j.payload.turnId.value in w.turns.Keys;
    }
  }

  function Ids(order: seq<JobId>): set<JobId> {
    set id | id in order
  }

  /** The rows are distinct jobs of `w` that have not ended, and each passes the sweep's guard. */
  ghost predicate Awaiting(w: World, done: set<JobId>, sweep: Sweep, order: seq<JobId>, now: int) {
    && (forall i, j | 0 <= i < j < |order| :: order[i] != order[j])
    && (forall id | id in order :: id in w.jobs && id !in done && Guarded(sweep, w.jobs[id], now))
  }

  ghost predicate Blocked(w: World, done: set<JobId>, order: seq<JobId>) {
    exists i | 0 <= i < |order| :: Stuck(w, done + Ids(order[..i]), order[i])
  }

  lemma BlockedSnoc(w: World, done: set<JobId>, order: seq<JobId>, id: JobId)
    ensures Blocked(w, done, order + [id]) <==> Blocked(w, done, order) || Stuck(w, done + Ids(order), id)
  {
    var all := order + [id];
    assert all[..|order|] == order;
    forall i | 0 <= i < |order|
      ensures all[..i] == order[..i]
    {
    }
    if Stuck(w, done + Ids(order), id) {
      assert Stuck(w, done + Ids(all[..|order|]), all[|order|]);
    }
    if i: int :| 0 <= i < |order| && Stuck(w, done + Ids(order[..i]), order[i]) {
      assert Stuck(w, done + Ids(all[..i]), all[i]);
    }
    if i: int :| 0 <= i < |all| && Stuck(w, done + Ids(all[..i]), all[i]) && i < |order| {
      assert Stuck(w, done + Ids(order[..i]), order[i]);
    }
  }

  lemma SweepLast(w: World, sweep: Sweep, front: seq<JobId>, id: JobId, now: int)
    ensures SweepAll(w, sweep, front + [id], now) ==
            if SweepAll(w, sweep, front, now).Ok? then SweepOne(SweepAll(w, sweep, front, now).value, sweep, id, now)
            else SweepAll(w, sweep, front, now)
  {
    assert (front + [id])[..|front|] == front;
  }

  ghost predicate SweepOutcome(w: World, done: set<JobId>, order: seq<JobId>, r: Result<World, Error>) {
    && (DistinctSubmissions(w.ingress) ==> (r.Err? <==> Blocked(w, done, order)))
    && (r.Ok? ==> Carried(w, r.value, done + Ids(order)))
  }

  /** A sweep raises exactly when some row is stuck by its turn; otherwise all its rows have ended. */
  lemma {:induction false} SweepCarries(w: World, u: World, done: set<JobId>, sweep: Sweep, order: seq<JobId>, now: int)
    requires Carried(w, u, done) && Awaiting(w, done, sweep, order, now)
    ensures SweepOutcome(w, done, order, SweepAll(u, sweep, order, now))
    decreases |order|
  {
    if order == [] {
      assert done + Ids(order) == done;
    } else {
      var n := |order| - 1;
      var front, id := order[..n], order[n];
      assert order == front + [id];
      AwaitingFront(w, done, sweep, front, id, now);
      SweepCarries(w, u, done, sweep, front, now);
      SweepLast(u, sweep, front, id, now);
      OutcomeSnoc(w, done, sweep, front, id, now, SweepAll(u, sweep, front, now), SweepAll(u, sweep, order, now));
    }
  }

  lemma AwaitingFront(w: World, done: set<JobId>, sweep: Sweep, front: seq<JobId>, id: JobId, now: int)
    requires Awaiting(w, done, sweep, front + [id], now)
    ensures Awaiting(w, done, sweep, front, now)
    ensures id in w.jobs && id !in done && id !in front && Guarded(sweep, w.jobs[id], now)
  {
    var order := front + [id];
    assert order[|front|] == id;
    assert forall i | 0 <= i < |front| :: order[i] == front[i];
    assert forall o | o in front :: o in order;
    assert id in order;
  }

  lemma OutcomeSnoc(w: World, done: set<JobId>, sweep: Sweep, front: seq<JobId>, id: JobId, now: int,
                    r: Result<World, Error>, s: Result<World, Error>)
    requires SweepOutcome(w, done, front, r) && s == if r.Ok? then SweepOne(r.value, sweep, id, now) else r
    requires id in w.jobs && id !in done && id !in front && Guarded(sweep, w.jobs[id], now)
    ensures SweepOutcome(w, done, front + [id], s)
  {
    BlockedSnoc(w, done, front, id);
    assert done + Ids(front) + {id} == done + Ids(front + [id]);
    if r.Ok? {
      SweepStep(w, r.value, done + Ids(front), sweep, id, now);
    }
  }

  lemma SweepStep(w: World, m: World, before: set<JobId>, sweep: Sweep, id: JobId, now: int)
    requires Carried(w, m, before) && id in w.jobs && id !in before && Guarded(sweep, w.jobs[id], now)
    ensures DistinctSubmissions(w.ingress) ==> (SweepOne(m, sweep, id, now).Err? <==> Stuck(w, before, id))
    ensures SweepOne(m, sweep, id, now).Ok? ==> Carried(w, SweepOne(m, sweep, id, now).value, before + {id})
  {
    assert m.jobs[id] == w.jobs[id];
    if DistinctSubmissions(w.ingress) {
      EndingRaises(w, m, before, id, sweep.ErrorKind(), now);
    }
    var r := Terminalise(m, id, sweep.ErrorKind(), now);
    if r.Ok? {
      CarryOn(w, m, before, id, sweep.ErrorKind(), now, r.value);
    }
  }

  lemma NewRowsUnlisted(w: World, u: World, sweep: Sweep, now: int)
    requires OnlyHistoryAdded(w.jobs, u.jobs, w.ingress) && sweep != ByDeadline
    ensures forall id | id in u.jobs && id !in w.jobs :: !Selected(u, sweep, u.jobs[id], now)
  {
    forall id | id in u.jobs && id !in w.jobs
      ensures !Selected(u, sweep, u.jobs[id], now)
    {
      assert IsHistoryJob(w.ingress, id, u.jobs[id]);
    }
  }

  /** What a query returns after earlier sweeps are rows of the claim's own start. */
  lemma ListedAwaits(w: World, u: World, done: set<JobId>, sweep: Sweep, order: seq<JobId>, now: int)
    requires Carried(w, u, done) && Lists(order, u, sweep, now)
    requires sweep == ByDeadline ==> u == w && done == {}
    ensures Awaiting(w, done, sweep, order, now)
  {
    if sweep != ByDeadline {
      NewRowsUnlisted(w, u, sweep, now);
    }
    forall id | id in order
      ensures id in w.jobs && id !in done && Guarded(sweep, w.jobs[id], now)
    {
      assert Selected(u, sweep, u.jobs[id], now);
    }
  }

  /** The rows of a claim in the order the sweeps meet them. */
  function AllRows(rows: ClaimRows): seq<JobId> {
    rows.deadline + rows.artifact + rows.attempts
  }

  lemma BlockedJoin(w: World, done: set<JobId>, a: seq<JobId>, b: seq<JobId>)
    ensures Blocked(w, done, a + b) <==> Blocked(w, done, a) || Blocked(w, done + Ids(a), b)
    decreases |b|
  {
    if b == [] {
      assert a + b == a;
    } else {
      var n := |b| - 1;
      BlockedJoin(w, done, a, b[..n]);
      assert a + b == (a + b[..n]) + [b[n]] && b == b[..n] + [b[n]];
      BlockedSnoc(w, done, a + b[..n], b[n]);
      BlockedSnoc(w, done + Ids(a), b[..n], b[n]);
      assert done + Ids(a) + Ids(b[..n]) == done + Ids(a + b[..n]);
    }
  }

  lemma OutcomesJoin(w: World, a: seq<JobId>, b: seq<JobId>, r: Result<World, Error>, s: Result<World, Error>)
    requires SweepOutcome(w, {}, a, r)
    requires if r.Ok? then SweepOutcome(w, Ids(a), b, s) else s == r
    ensures SweepOutcome(w, {}, a + b, s)
  {
    BlockedJoin(w, {}, a, b);
    assert {} + Ids(a) == Ids(a) && {} + Ids(a + b) == Ids(a) + Ids(b);
  }

  /**
   * The three sweeps of a claim raise exactly when one of their rows is stuck by its turn; otherwise all have ended.
   */
  lemma SweepPhaseOutcome(w: World, rows: ClaimRows, now: int)
    requires RowsOf(rows, w, now)
    ensures SweepOutcome(w, {}, AllRows(rows), SweepPhase(w, rows, now))
  {
    var d, a, n := rows.deadline, rows.artifact, rows.attempts;
    var r1 := SweepAll(w, ByDeadline, d, now);
    CarriedAtFirst(w);
    ListedAwaits(w, w, {}, ByDeadline, d, now);
    SweepCarries(w, w, {}, ByDeadline, d, now);
    var r2 := if r1.Ok? then SweepAll(r1.value, ByArtifact, a, now) else r1;
    if r1.Ok? {
      assert {} + Ids(d) == Ids(d);
      ListedAwaits(w, r1.value, Ids(d), ByArtifact, a, now);
      SweepCarries(w, r1.value, Ids(d), ByArtifact, a, now);
    }
    OutcomesJoin(w, d, a, r1, r2);
    var r3 := if r2.Ok? then SweepAll(r2.value, ByAttempts, n, now) else r2;
    if r2.Ok? {
      assert {} + Ids(d + a) == Ids(d + a);
      ListedAwaits(w, r2.value, Ids(d + a), ByAttempts, n, now);
      SweepCarries(w, r2.value, Ids(d + a), ByAttempts, n, now);
    }
    OutcomesJoin(w, d + a, n, r2, r3);
    assert r3 == SweepPhase(w, rows, now);
  }

  /** The artifact a deadline sweep leaves, told from the tables before it. */
  lemma ArtifactsAfterDeadlines(w: World, order: seq<JobId>, now: int, u: World, a: string)
    requires Lists(order, w, ByDeadline, now) && SweepAll(w, ByDeadline, order, now) == Ok(u)
    ensures a in u.artifacts <==> a in w.artifacts
    ensures a in w.artifacts ==> u.artifacts[a] == ArtifactAfter(w.artifacts[a], KilledBy(w, Ids(order), a))
  {
    CarriedAtFirst(w);
    ListedAwaits(w, w, {}, ByDeadline, order, now);
    SweepCarries(w, w, {}, ByDeadline, order, now);
    assert {} + Ids(order) == Ids(order);
    assert a in u.artifacts.Keys <==> a in w.artifacts.Keys;
  }
}
