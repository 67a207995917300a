/**
 * The durable worker's tables and the transaction behind each worker operation.
 *
 * Every operation is a function from the tables before the transaction to the
 * tables it commits, or to the error it raises (and then nothing is committed).
 * Times are milliseconds. A job identifier is a hash of the idempotency key and
 * a lease token a hash of the job and the attempt number; both are modelled by
 * the injective value they are a hash of.
 */
module WorkerLedger {
  import opened Wrappers

  type JobId = string

  datatype Token = Issued(job: JobId, number: nat) | Foreign(text: string)

  datatype Status = Pending | Claimed | RetryWait | Succeeded | FailedPermanent {
    predicate Active() {
      this == Pending || this == Claimed || this == RetryWait
    }
  }

  datatype Outcome = Running | Won | WaitingRetry | Lost | Reclaimed

  datatype Error = NotFound | LeaseConflict | Conflict | Invalid

  /** The payload keys the terminal projection looks at; `rest` is everything else. */
  datatype Payload = Payload(
    turnId: Option<string>,
    sessionId: Option<string>,
    segment: Option<nat>,
    artifactId: Option<string>,
    submissionId: Option<string>,
    rest: string)

  datatype Receipt = Receipt(
    effectId: string,
    status: string,
    jobId: Option<JobId>,
    key: Option<string>,
    stage: Option<string>,
    rest: string)

  datatype Job = Job(
    kind: string,
    stage: string,
    payload: Payload,
    chain: Option<string>,
    deadline: Option<int>,
    status: Status,
    owner: Option<string>,
    token: Option<Token>,
    leaseExpires: Option<int>,
    nextAttempt: int,
    attemptCount: nat,
    maxAttempts: nat,
    lastError: Option<string>,
    receipt: Option<Receipt>,
    createdAt: int,
    completedAt: Option<int>)

  datatype Attempt = Attempt(
    owner: string,
    token: Token,
    stage: string,
    startedAt: int,
    finishedAt: Option<int>,
    outcome: Outcome,
    errorKind: Option<string>,
    receipt: Option<Receipt>)

  datatype Turn = Turn(finalOutcome: Option<string>)

  datatype Ingress = Ingress(submission: string, target: string, failed: bool)

  datatype ArtifactState = ArtifactPending | ArtifactReady | ArtifactExpired

  datatype Artifact = Artifact(turnId: string, state: ArtifactState, expiresAt: Option<int>)

  datatype DecisionState = Queued | InProgress | DecisionPending | StoredSilent | Delivered | NoSpeech | DecisionFailed

  datatype World = World(
    jobs: map<JobId, Job>,
    attempts: map<(JobId, nat), Attempt>,
    turns: map<string, Turn>,
    ingress: map<string, Ingress>,
    decisions: map<(string, nat), DecisionState>,
    artifacts: map<string, Artifact>)

  /** What a live claim must present to act as the job's worker. */
  datatype Claim = Claim(job: JobId, owner: string, token: Token)

  /** The immutable part of an enqueue request. */
  datatype Spec = Spec(
    kind: string,
    stage: string,
    payload: Payload,
    chain: Option<string>,
    maxAttempts: nat,
    nextAttempt: int,
    deadline: Option<int>)

  const NO_PAYLOAD := Payload(None, None, None, None, None, "")
  const EMPTY := World(map[], map[], map[], map[], map[], map[])

  const HISTORY_KIND := "hermes_history"

  function PlusSeconds(t: int, s: int): int {
    t + 1000 * s
  }

  predicate Reached(deadline: Option<int>, now: int) {
    deadline.Some? && deadline.value <= now
  }

  // ---- enqueue ------------------------------------------------------------

  function EnqueueTx(w: World, id: JobId, s: Spec, now: int): Result<World, Error> {
    if id in w.jobs then
      var e := w.jobs[id];
      if e.payload != s.payload || e.kind != s.kind || e.stage != s.stage || e.chain != s.chain then Err(Conflict)
      else Ok(w)
    else
      var job := Job(s.kind, s.stage, s.payload, s.chain, s.deadline, Pending, None, None, None,
                     s.nextAttempt, 0, s.maxAttempts, None, None, now, None);
      Ok(w.(jobs := w.jobs[id := job]))
  }

  // ---- the terminal projection ----------------------------------------------

  function HistoryKey(submission: string): JobId {
    "hermes-history:" + submission
  }

  function HistorySpec(turn: string, i: Ingress, now: int): Spec {
    Spec(HISTORY_KIND, "hermes",
         Payload(Some(turn), Some(i.target), None, None, Some(i.submission), ""), None,
         100, now, Some(PlusSeconds(now, 30)))
  }

  function ProjectArtifact(w: World, p: Payload): World {
    if p.artifactId.Some? && p.artifactId.value in w.artifacts then
      var a := w.artifacts[p.artifactId.value];
      if a.state == ArtifactPending && (p.turnId.None? || p.turnId.value == a.turnId) then
        w.(artifacts := w.artifacts[p.artifactId.value := a.(state := ArtifactExpired)])
      else w
    else w
  }

  function ProjectDecision(w: World, p: Payload): World {
    if p.sessionId.Some? && p.segment.Some? && (p.sessionId.value, p.segment.value) in w.decisions then
      var k := (p.sessionId.value, p.segment.value);
      if w.decisions[k] in {Queued, InProgress, DecisionPending}
      then w.(decisions := w.decisions[k := DecisionFailed])
      else w
    else w
  }

  predicate OwesFinal(w: World, job: Job) {
    job.payload.turnId.Some? && job.payload.turnId.value in w.turns &&
    w.turns[job.payload.turnId.value].finalOutcome.None? && job.kind != HISTORY_KIND
  }

  predicate ForEavesdrop(job: Job) {
    job.kind == "eavesdrop" || (job.payload.segment.Some? && job.payload.sessionId.Some?)
  }

  function ProjectTerminal(w: World, job: Job, now: int): Result<World, Error> {
    if job.stage == "tts" then Ok(ProjectArtifact(w, job.payload))
    else if ForEavesdrop(job) then Ok(ProjectDecision(w, job.payload))
    else if !OwesFinal(w, job) then Ok(w)
    else
      var t := job.payload.turnId.value;
      if job.stage == "hermes" then
        var w1 := w.(turns := w.turns[t := Turn(Some("hermes"))]);
        if t !in w.ingress then Ok(w1)
        else
          var i := w.ingress[t];
          EnqueueTx(w1.(ingress := w1.ingress[t := i.(failed := true)]),
                    HistoryKey(i.submission), HistorySpec(t, i, now), now)
      else
        Ok(w.(turns := w.turns[t := Turn(Some(if job.stage == "asr" then "asr" else "routing"))]))
  }

  // ---- terminating one job --------------------------------------------------

  function CloseRunning(attempts: map<(JobId, nat), Attempt>, id: JobId, outcome: Outcome, error: Option<string>,
                        now: int)
    : map<(JobId, nat), Attempt>
  {
    map k | k in attempts ::
      if k.0 == id && attempts[k].outcome == Running
      then attempts[k].(outcome := outcome, finishedAt := Some(now),
                        errorKind := if error.Some? then error else attempts[k].errorKind)
      else attempts[k]
  }

  function FailedRow(job: Job, error: string, now: int): Job {
    job.(status := FailedPermanent, owner := None, token := None, leaseExpires := None,
         lastError := Some(error), completedAt := Some(now))
  }

  /** Ends a job from outside its worker: the row, its running attempt, then the projection. */
  function Terminalise(w: World, id: JobId, error: string, now: int): Result<World, Error>
    requires id in w.jobs
  {
    var job := w.jobs[id];
    ProjectTerminal(
      w.(jobs := w.jobs[id := FailedRow(job, error, now)],
         attempts := CloseRunning(w.attempts, id, Lost, Some(error), now)),
      job, now)
  }

  // ---- claim -----------------------------------------------------------------

  datatype Sweep = ByDeadline | ByArtifact | ByAttempts {
    function ErrorKind(): string {
      if this == ByAttempts then "max_attempts" else "deadline"
    }
  }

  predicate ArtifactGone(w: World, job: Job, now: int) {
    job.stage == "tts" && job.payload.artifactId.Some? && job.payload.artifactId.value in w.artifacts &&
    var a := w.artifacts[job.payload.artifactId.value];
    a.state == ArtifactExpired || Reached(a.expiresAt, now)
  }

  predicate Available(job: Job, now: int) {
    && (((job.status == Pending || job.status == RetryWait) && job.nextAttempt <= now)
        || (job.status == Claimed && Reached(job.leaseExpires, now)))
    && !Reached(job.deadline, now)
  }

  /** The SELECT that opens a sweep. */
  predicate Selected(w: World, sweep: Sweep, job: Job, now: int) {
    match sweep
    case ByDeadline => job.status.Active() && Reached(job.deadline, now)
    case ByArtifact => job.status.Active() && ArtifactGone(w, job, now)
    case ByAttempts => Available(job, now) && job.attemptCount >= job.maxAttempts
  }

  /** The guard repeated by the sweep's UPDATE. */
  predicate Guarded(sweep: Sweep, job: Job, now: int) {
    match sweep
    case ByDeadline => job.status.Active() && Reached(job.deadline, now)
    case ByArtifact => job.status.Active()
    case ByAttempts => job.status.Active() && job.attemptCount >= job.maxAttempts
  }

  function SweepOne(w: World, sweep: Sweep, id: JobId, now: int): Result<World, Error> {
    if id in w.jobs && Guarded(sweep, w.jobs[id], now) then Terminalise(w, id, sweep.ErrorKind(), now) else Ok(w)
  }

  function SweepAll(w: World, sweep: Sweep, order: seq<JobId>, now: int): Result<World, Error>
    decreases |order|
  {
    if order == [] then Ok(w)
    else
      var w1 :- SweepAll(w, sweep, order[..|order| - 1], now);
      SweepOne(w1, sweep, order[|order| - 1], now)
  }

  predicate Eligible(job: Job, now: int) {
    Available(job, now) && job.attemptCount < job.maxAttempts
  }

  predicate Before(a: Job, b: Job) {
    a.nextAttempt < b.nextAttempt || (a.nextAttempt == b.nextAttempt && a.createdAt <= b.createdAt)
  }

  /** The row `ORDER BY next_attempt_at, created_at LIMIT 1` returns; ties may go either way. */
  predicate FirstEligible(w: World, pick: Option<JobId>, now: int) {
    match pick
    case None => forall id | id in w.jobs :: !Eligible(w.jobs[id], now)
    case Some(p) =>
      && p in w.jobs && Eligible(w.jobs[p], now)
      && forall id | id in w.jobs && Eligible(w.jobs[id], now) :: Before(w.jobs[p], w.jobs[id])
  }

  predicate Lists(order: seq<JobId>, w: World, sweep: Sweep, now: int) {
    && (forall i, j | 0 <= i < j < |order| :: order[i] != order[j])
    && (forall id | id in order :: id in w.jobs && Selected(w, sweep, w.jobs[id], now))
    && (forall id | id in w.jobs && Selected(w, sweep, w.jobs[id], now) :: id in order)
  }

  /** The rows each query of one claim returned, in the order they were walked. */
  datatype ClaimRows = ClaimRows(deadline: seq<JobId>, artifact: seq<JobId>, attempts: seq<JobId>, pick: Option<JobId>)

  function Take(w: World, id: JobId, owner: string, lease: int, now: int): World
    requires id in w.jobs
  {
    var job := w.jobs[id];
    var n := job.attemptCount + 1;
    var token := Issued(id, n);
    var closed := if job.status == Claimed then CloseRunning(w.attempts, id, Reclaimed, None, now) else w.attempts;
    w.(jobs := w.jobs[id := job.(status := Claimed, owner := Some(owner), token := Some(token),
                                 leaseExpires := Some(PlusSeconds(now, lease)), attemptCount := n)],
       attempts := closed[(id, n) := Attempt(owner, token, job.stage, now, None, Running, None, None)])
  }

  function SweepPhase(w: World, rows: ClaimRows, now: int): Result<World, Error> {
    var w1 :- SweepAll(w, ByDeadline, rows.deadline, now);
    var w2 :- SweepAll(w1, ByArtifact, rows.artifact, now);
    SweepAll(w2, ByAttempts, rows.attempts, now)
  }

  function ClaimJob(w: World, owner: string, lease: int, rows: ClaimRows, now: int): Result<World, Error> {
    var w3 :- SweepPhase(w, rows, now);
    if rows.pick.Some? && rows.pick.value in w3.jobs then Ok(Take(w3, rows.pick.value, owner, lease, now)) else Ok(w3)
  }

  /** `rows` are rows the claim's queries can return on `w`. */
  predicate RowsOf(rows: ClaimRows, w: World, now: int) {
    && Lists(rows.deadline, w, ByDeadline, now)
    && var r1 := SweepAll(w, ByDeadline, rows.deadline, now);
    r1.Ok? ==>
      && Lists(rows.artifact, r1.value, ByArtifact, now)
      && var r2 := SweepAll(r1.value, ByArtifact, rows.artifact, now);
      r2.Ok? ==>
        && Lists(rows.attempts, r2.value, ByAttempts, now)
        && var r3 := SweepAll(r2.value, ByAttempts, rows.attempts, now);
        r3.Ok? ==> FirstEligible(r3.value, rows.pick, now)
  }

  // ---- renew, effect check, complete, fail ------------------------------------

  predicate Holds(w: World, c: Claim) {
    c.job in w.jobs && w.jobs[c.job].status == Claimed &&
    w.jobs[c.job].owner == Some(c.owner) && w.jobs[c.job].token == Some(c.token)
  }

  predicate Live(w: World, c: Claim, now: int) {
    Holds(w, c) && w.jobs[c.job].leaseExpires.Some? && now < w.jobs[c.job].leaseExpires.value
  }

  function Min(a: int, b: int): int {
    if a <= b then a else b
  }

  function RenewLease(w: World, c: Claim, lease: int, now: int): Result<(World, bool), Error> {
    if !Holds(w, c) then Ok((w, false))
    else
      var job := w.jobs[c.job];
      if Reached(job.deadline, now) then
        var w1 :- Terminalise(w, c.job, "deadline", now);
        Ok((w1, false))
      else if !Live(w, c, now) then Ok((w, false))
      else
        var e := PlusSeconds(now, lease);
        var until := if job.deadline.Some? then Min(e, job.deadline.value) else e;
        Ok((w.(jobs := w.jobs[c.job := job.(leaseExpires := Some(until))]), true))
  }

  function AssertClaim(w: World, c: Claim, now: int): Result<Job, Error> {
    if c.job !in w.jobs then Err(NotFound)
    else if !Live(w, c, now) then Err(LeaseConflict)
    else Ok(w.jobs[c.job])
  }

  function AssertEffect(w: World, c: Claim, stage: Option<string>, turn: Option<string>,
                        now: int): Result<(World, bool), Error>
  {
    var job :- AssertClaim(w, c, now);
    if stage.Some? && job.stage != stage.value then Err(LeaseConflict)
    else if turn.Some? && job.payload.turnId != turn then Err(LeaseConflict)
    else if Reached(job.deadline, now) then
      var w1 :- Terminalise(w, c.job, "deadline", now);
      Ok((w1, false))
    else Ok((w, true))
  }

  /** Enqueue fenced by a worker's claim: a fence that fails raises, so nothing is kept. */
  function EnqueueJob(w: World, id: JobId, s: Spec, fence: Option<(Claim, string)>, now: int): Result<World, Error> {
    if !(1 <= s.maxAttempts <= 100) then Err(Invalid)
    else if fence.None? then EnqueueTx(w, id, s, now)
    else
      var (w1, ok) :- AssertEffect(w, fence.value.0, Some(fence.value.1), s.payload.turnId, now);
      if !ok then Err(LeaseConflict) else EnqueueTx(w1, id, s, now)
  }

  function BindReceipt(id: JobId, job: Job, r: Receipt): Result<Receipt, Error> {
    if r.jobId.Some? && r.jobId.value != id then Err(Conflict)
    else if r.key.Some? && r.key.value != id then Err(Conflict)
    else if r.effectId == "" || r.status !in {"accepted", "succeeded", "not_required"} then Err(Invalid)
    else Ok(r.(jobId := Some(id), key := Some(id), stage := if r.stage.Some? then r.stage else Some(job.stage)))
  }

  /** The owner and token of the newest attempt with a terminal outcome. */
  predicate Winning(w: World, c: Claim) {
    exists k | k in w.attempts ::
      && k.0 == c.job
      && w.attempts[k].outcome in {Won, Lost}
      && w.attempts[k].owner == c.owner
      && w.attempts[k].token == c.token
      && forall m | m in w.attempts && m.0 == c.job && k.1 < m.1 :: w.attempts[m].outcome !in {Won, Lost}
  }

  function FinishAttempt(w: World, id: JobId, n: nat, outcome: Outcome, error: Option<string>,
                         receipt: Option<Receipt>, now: int): World
  {
    if (id, n) in w.attempts && w.attempts[(id, n)].outcome == Running then
      var a := w.attempts[(id, n)];
      var done := a.(outcome := outcome, errorKind := error, receipt := receipt, finishedAt := Some(now));
      w.(attempts := w.attempts[(id, n) := done])
    else w
  }

  function CompleteJob(w: World, c: Claim, receipt: Receipt, now: int): Result<World, Error> {
    if c.job !in w.jobs then Err(NotFound)
    else
      var job := w.jobs[c.job];
      var bound :- BindReceipt(c.job, job, receipt);
      if job.status == Succeeded then
        if !Winning(w, c) then Err(LeaseConflict)
        else if job.receipt != Some(bound) then Err(Conflict)
        else Ok(w)
      else if job.status == FailedPermanent && job.lastError in {Some("deadline"), Some("max_attempts")} then
        if !Winning(w, c) then Err(LeaseConflict) else Ok(w)
      else if Holds(w, c) && Reached(job.deadline, now) then Terminalise(w, c.job, "deadline", now)
      else
        var _ :- AssertClaim(w, c, now);
        var won := job.(status := Succeeded, owner := None, token := None, leaseExpires := None,
                        receipt := Some(bound), completedAt := Some(now));
        Ok(FinishAttempt(w.(jobs := w.jobs[c.job := won]), c.job, job.attemptCount, Won, None, Some(bound), now))
  }

  function Pow2(n: nat): nat {
    if n == 0 then 1 else 2 * Pow2(n - 1)
  }

  function Backoff(count: nat): int {
    Min(300, Pow2(if count <= 8 then count else 8))
  }

  function FailJob(w: World, c: Claim, error: string, retryable: bool, retryAfter: Option<nat>,
                   now: int): Result<World, Error>
  {
    if Holds(w, c) && Reached(w.jobs[c.job].deadline, now) then Terminalise(w, c.job, "deadline", now)
    else
      var job :- AssertClaim(w, c, now);
      var n := job.attemptCount;
      if retryable && n < job.maxAttempts then
        var delay := if retryAfter.Some? then retryAfter.value else Backoff(n);
        var row := job.(status := RetryWait, owner := None, token := None, leaseExpires := None,
                        nextAttempt := PlusSeconds(now, delay), lastError := Some(error), completedAt := None);
        Ok(FinishAttempt(w.(jobs := w.jobs[c.job := row]), c.job, n, WaitingRetry, Some(error), None, now))
      else
        var row := FailedRow(job, error, now).(nextAttempt := now);
        ProjectTerminal(
          FinishAttempt(w.(jobs := w.jobs[c.job := row]), c.job, n, Lost, Some(error), None, now), job, now)
  }

  // ---- recovery of expired leases ----------------------------------------------

  predicate LeaseExpired(job: Job, now: int) {
    job.status == Claimed && Reached(job.leaseExpires, now)
  }

  function RecoverOne(w: World, id: JobId, now: int): Result<World, Error> {
    if id !in w.jobs then Ok(w)
    else
      var job := w.jobs[id];
      var late := Reached(job.deadline, now);
      if late || job.attemptCount >= job.maxAttempts then
        var error := if late then "deadline" else "lease_expired";
        ProjectTerminal(
          FinishAttempt(w.(jobs := w.jobs[id := FailedRow(job, error, now)]),
                        id, job.attemptCount, Lost, None, None, now),
          job, now)
      else
        var row := job.(status := RetryWait, owner := None, token := None, leaseExpires := None, nextAttempt := now);
        Ok(FinishAttempt(w.(jobs := w.jobs[id := row]), id, job.attemptCount, Reclaimed, None, None, now))
  }

  function RecoverAll(w: World, order: seq<JobId>, now: int): Result<World, Error>
    decreases |order|
  {
    if order == [] then Ok(w)
    else
      var w1 :- RecoverAll(w, order[..|order| - 1], now);
      RecoverOne(w1, order[|order| - 1], now)
  }

  predicate ListsExpired(order: seq<JobId>, w: World, now: int) {
    && (forall i, j | 0 <= i < j < |order| :: order[i] != order[j])
    && (forall id | id in order :: id in w.jobs && LeaseExpired(w.jobs[id], now))
    && (forall id | id in w.jobs && LeaseExpired(w.jobs[id], now) :: id in order)
  }

  // ---- runs ----------------------------------------------------------------------

  datatype Step =
    | Enqueue(id: JobId, spec: Spec, fence: Option<(Claim, string)>, now: int)
    | ClaimStep(owner: string, lease: int, rows: ClaimRows, now: int)
    | Renew(claim: Claim, lease: int, now: int)
    | Effect(claim: Claim, stage: Option<string>, turn: Option<string>, now: int)
    | Complete(claim: Claim, receipt: Receipt, now: int)
    | Fail(claim: Claim, error: string, retryable: bool, retryAfter: Option<nat>, now: int)
    | Recover(order: seq<JobId>, now: int)
    | Environment(turns: map<string, Turn>, ingress: map<string, Ingress>,
                  decisions: map<(string, nat), DecisionState>, artifacts: map<string, Artifact>)

  /** What a step commits. A query result that the tables could not have given is no step. */
  function Commit(w: World, s: Step): Result<World, Error> {
    match s
    case Enqueue(id, spec, fence, now) => EnqueueJob(w, id, spec, fence, now)
    case ClaimStep(owner, lease, rows, now) =>
      if RowsOf(rows, w, now) then ClaimJob(w, owner, lease, rows, now) else Err(Invalid)
    case Renew(c, lease, now) => (var (w1, _) :- RenewLease(w, c, lease, now); Ok(w1))
    case Effect(c, stage, turn, now) => (var (w1, _) :- AssertEffect(w, c, stage, turn, now); Ok(w1))
    case Complete(c, receipt, now) => CompleteJob(w, c, receipt, now)
    case Fail(c, error, retryable, retryAfter, now) => FailJob(w, c, error, retryable, retryAfter, now)
    case Recover(order, now) => if ListsExpired(order, w, now) then RecoverAll(w, order, now) else Err(Invalid)
    case Environment(turns, ingress, decisions, artifacts) =>
      Ok(w.(turns := turns, ingress := ingress, decisions := decisions, artifacts := artifacts))
  }

  /** A step that raises leaves the tables as they were. */
  function Next(w: World, s: Step): World {
    var r := Commit(w, s);
    if r.Ok? then r.value else w
  }

  function Run(w: World, steps: seq<Step>): World
    decreases |steps|
  {
    if steps == [] then w else Next(Run(w, steps[..|steps| - 1]), steps[|steps| - 1])
  }
}
