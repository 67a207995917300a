/**
 * What each worker operation answers and leaves behind, told from the fields of the
 * rows before it: when it succeeds, when it refuses, and everything it writes.
 */
module WorkerOutcomes {
  import opened Wrappers
  import opened WorkerLedger
  import opened WorkerInvariant
  import opened WorkerSweeps

  predicate Mine(j: Job, c: Claim) {
    j.status == Claimed && j.owner == Some(c.owner) && j.token == Some(c.token)
  }

  predicate Overtime(j: Job, now: int) {
    j.deadline.Some? && j.deadline.value <= now
  }

  predicate LeaseAhead(j: Job, now: int) {
    j.leaseExpires.Some? && now < j.leaseExpires.value
  }

  // ---- ending a job ---------------------------------------------------------------------

  /** The running attempts of the job are closed with this outcome; no other attempt differs. */
  ghost predicate AttemptClosed(w: World, v: World, id: JobId, outcome: Outcome, kind: Option<string>, now: int) {
    && v.attempts.Keys == w.attempts.Keys
    && forall k | k in w.attempts ::
         v.attempts[k] ==
         if k.0 == id && w.attempts[k].outcome == Running
         then w.attempts[k].(outcome := outcome, errorKind := kind, finishedAt := Some(now),
                             receipt := v.attempts[k].receipt)
         else w.attempts[k]
  }

  ghost predicate OthersKept(w: World, v: World, id: JobId) {
    forall o | o in w.jobs && o != id :: o in v.jobs && v.jobs[o] == w.jobs[o]
  }

  /** The job's turn is still open, its submission is known, and it is a Hermes job that answers for it. */
  predicate OwesHistory(w: World, j: Job) {
    && j.stage == "hermes" && j.payload.turnId.Some?
    && var t := j.payload.turnId.value;
       Closes(j, t) && OpenTurn(w.turns, t) && t in w.ingress
  }

  /** The history job of a submission as it is enqueued. */
  function HistoryJob(t: string, i: Ingress, now: int): Job {
    Job("hermes_history", "hermes", Payload(Some(t), Some(i.target), None, None, Some(i.submission), ""), None,
        Some(now + 30_000), Pending, None, None, None, now, 0, 100, None, None, now, None)
  }

  /** A job that owes history gets its submission's history job, due now, for half a minute, unless it is there. */
  predicate HistoryFollows(w: World, v: World, id: JobId, now: int) {
    id in w.jobs && id in v.jobs &&
    if !OwesHistory(w, w.jobs[id]) then v.jobs.Keys == w.jobs.Keys
    else
      var t := w.jobs[id].payload.turnId.value;
      var key := "hermes-history:" + w.ingress[t].submission;
      && v.jobs.Keys == w.jobs.Keys + {key}
      && (key !in w.jobs ==> v.jobs[key] == HistoryJob(t, w.ingress[t], now))
  }

  /** The job, its running attempt, and what follows for its turn, artifact, decision and ingress row. */
  ghost predicate EndsJob(w: World, v: World, id: JobId, error: string, kind: Option<string>, now: int) {
    && id in w.jobs && id in v.jobs
    && v.jobs[id] == w.jobs[id].(status := FailedPermanent, owner := None, token := None, leaseExpires := None,
                                 lastError := Some(error), completedAt := Some(now),
                                 nextAttempt := v.jobs[id].nextAttempt)
    && OthersKept(w, v, id) && HistoryFollows(w, v, id, now)
    && AttemptClosed(w, v, id, Lost, kind, now)
    && TablesCarried(w, v, {id})
  }

  /** The job ends, unless another job holds its history key: then the transaction raises. */
  ghost predicate EndsOrRaises<T>(w: World, v: World, id: JobId, error: string, kind: Option<string>, now: int,
                                  r: Result<T, Error>)
  {
    id in w.jobs &&
    if HistoryTaken(w, w.jobs[id]) then v == w && r == Err(Conflict)
    else r.Ok? && EndsJob(w, v, id, error, kind, now)
  }

  lemma ProjectionEnds(w: World, m: World, id: JobId, row: Job, error: string, kind: Option<string>, now: int)
    requires id in w.jobs && m == w.(jobs := w.jobs[id := row], attempts := m.attempts)
    requires row == FailedRow(w.jobs[id], error, now).(nextAttempt := row.nextAttempt)
    requires AttemptClosed(w, m, id, Lost, kind, now)
    ensures var p := ProjectTerminal(m, w.jobs[id], now);
            if HistoryTaken(w, w.jobs[id]) then p == Err(Conflict)
            else p.Ok? && EndsJob(w, p.value, id, error, kind, now)
  {
    var p := ProjectTerminal(m, w.jobs[id], now);
    assert m.jobs.Keys == w.jobs.Keys;
    TakenFrame(w, m, w.jobs[id]);
    ProjectionRaises(m, w.jobs[id], now);
    if p.Ok? {
      ProjectionDoes(m, w.jobs[id], now, p.value);
      ProjectionKeepsAttempts(m, w.jobs[id], now, p.value);
      HistoryComes(w, m, id, now, p.value);
      CarriedAtFirst(w);
      CarriedAlong(w, w, m, {});
      TablesCarryOn(w, m, p.value, {}, id);
      assert {} + {id} == {id};
    }
  }

  lemma HistoryComes(w: World, m: World, id: JobId, now: int, v: World)
    requires id in w.jobs && m == w.(jobs := m.jobs, attempts := m.attempts) && m.jobs.Keys == w.jobs.Keys
    requires ProjectTerminal(m, w.jobs[id], now) == Ok(v) && id in v.jobs
    ensures HistoryFollows(w, v, id, now)
  {
    var j := w.jobs[id];
    if OwesHistory(w, j) {
      var t := j.payload.turnId.value;
      HistoryEnqueued(m, j, t, now, v);
    } else {
      NoHistory(m, j, now, v);
    }
  }

  lemma NoHistory(m: World, j: Job, now: int, v: World)
    requires ProjectTerminal(m, j, now) == Ok(v) && !OwesHistory(m, j)
    ensures v.jobs == m.jobs
  {
  }

  lemma HistoryEnqueued(m: World, j: Job, t: string, now: int, v: World)
    requires ProjectTerminal(m, j, now) == Ok(v) && OwesHistory(m, j) && j.payload.turnId == Some(t)
    ensures var key := HistoryKey(m.ingress[t].submission);
            v.jobs == if key in m.jobs then m.jobs else m.jobs[key := HistoryJob(t, m.ingress[t], now)]
  {
  }

  lemma ProjectionKeepsAttempts(m: World, job: Job, now: int, v: World)
    requires ProjectTerminal(m, job, now) == Ok(v)
    ensures v.attempts == m.attempts
  {
  }

  /** Ending from outside: at a deadline, by a sweep, by a late report. */
  lemma TerminaliseEnds(w: World, id: JobId, error: string, now: int)
    requires id in w.jobs
    ensures var p := Terminalise(w, id, error, now);
            if HistoryTaken(w, w.jobs[id]) then p == Err(Conflict)
            else p.Ok? && EndsJob(w, p.value, id, error, Some(error), now)
  {
    var m := Ending(w, id, error, now);
    assert AttemptClosed(w, m, id, Lost, Some(error), now);
    ProjectionEnds(w, m, id, FailedRow(w.jobs[id], error, now), error, Some(error), now);
  }

  /** The transaction's answer and the tables it leaves. */
  predicate Answers(spec: Result<World, Error>, w: World, v: World, r: Result<(), Error>) {
    if spec.Ok? then v == spec.value && r == Ok(()) else v == w && r == Err(spec.error)
  }

  lemma EndingAnswers(w: World, id: JobId, error: string, kind: Option<string>, now: int, p: Result<World, Error>,
                      v: World, r: Result<(), Error>)
    requires id in w.jobs && Answers(p, w, v, r)
    requires if HistoryTaken(w, w.jobs[id]) then p == Err(Conflict)
             else p.Ok? && EndsJob(w, p.value, id, error, kind, now)
    ensures EndsOrRaises(w, v, id, error, kind, now, r)
  {
  }

  lemma DeadlineEnds(w: World, id: JobId, now: int, v: World, r: Result<(), Error>)
    requires id in w.jobs && Answers(Terminalise(w, id, "deadline", now), w, v, r)
    ensures EndsOrRaises(w, v, id, "deadline", Some("deadline"), now, r)
  {
    TerminaliseEnds(w, id, "deadline", now);
    EndingAnswers(w, id, "deadline", Some("deadline"), now, Terminalise(w, id, "deadline", now), v, r);
  }

  /** Closing the newest attempt is closing the running one. */
  lemma FinishCloses(w: World, u: World, id: JobId, outcome: Outcome, kind: Option<string>, receipt: Option<Receipt>,
                     now: int)
    requires id in w.jobs && JobInv(w, id) && u.attempts == w.attempts
    ensures AttemptClosed(w, FinishAttempt(u, id, w.jobs[id].attemptCount, outcome, kind, receipt, now),
                          id, outcome, kind, now)
  {
    var n := w.jobs[id].attemptCount;
    var v := FinishAttempt(u, id, n, outcome, kind, receipt, now);
    forall k | k in w.attempts && k.0 == id && w.attempts[k].outcome == Running
      ensures k == (id, n)
    {
      assert (id, k.1) in w.attempts;
    }
    assert v.attempts.Keys == w.attempts.Keys;
  }

  // ---- renewal and effect check ---------------------------------------------------------

  function Sooner(j: Job, until: int): int {
    if j.deadline.Some? && j.deadline.value < until then j.deadline.value else until
  }

  /**
   * The holder of the job gets its lease extended exactly while the lease is ahead and the deadline not reached;
   * the new expiry is the one asked for, cut to the deadline, and nothing else changes.
   */
  ghost predicate RenewOutcome(w: World, v: World, c: Claim, lease: int, now: int, r: Result<bool, Error>) {
    if c.job !in w.jobs || !Mine(w.jobs[c.job], c) then r == Ok(false) && v == w
    else
      var j := w.jobs[c.job];
      if Overtime(j, now) then EndsOrRaises(w, v, c.job, "deadline", Some("deadline"), now, r) && r != Ok(true)
      else if LeaseAhead(j, now) then
        && r == Ok(true)
        && v == w.(jobs := w.jobs[c.job := j.(leaseExpires := Some(Sooner(j, now + 1000 * lease)))])
      else r == Ok(false) && v == w
  }

  /** The answer of a transaction that also returns a flag, and the tables it leaves. */
  predicate Says(spec: Result<(World, bool), Error>, w: World, v: World, r: Result<bool, Error>) {
    if spec.Ok? then v == spec.value.0 && r == Ok(spec.value.1) else v == w && r == Err(spec.error)
  }

  lemma WhenRenewed(w: World, c: Claim, lease: int, now: int, v: World, r: Result<bool, Error>)
    requires Says(RenewLease(w, c, lease, now), w, v, r)
    ensures RenewOutcome(w, v, c, lease, now, r)
  {
    if c.job in w.jobs && Mine(w.jobs[c.job], c) && Overtime(w.jobs[c.job], now) {
      TerminaliseEnds(w, c.job, "deadline", now);
    }
  }

  /** The check passes exactly for the holder, under its lease, for its stage and turn, before the deadline. */
  ghost predicate EffectOutcome(w: World, v: World, c: Claim, stage: Option<string>, turn: Option<string>, now: int,
                                r: Result<bool, Error>)
  {
    if c.job !in w.jobs then r == Err(NotFound) && v == w
    else
      var j := w.jobs[c.job];
      if !Mine(j, c) || !LeaseAhead(j, now) || (stage.Some? && stage.value != j.stage) ||
         (turn.Some? && turn != j.payload.turnId) then r == Err(LeaseConflict) && v == w
      else if Overtime(j, now) then
        EndsOrRaises(w, v, c.job, "deadline", Some("deadline"), now, r) && r != Ok(true)
      else r == Ok(true) && v == w
  }

  lemma WhenEffectPasses(w: World, c: Claim, stage: Option<string>, turn: Option<string>, now: int, v: World,
                         r: Result<bool, Error>)
    requires Says(AssertEffect(w, c, stage, turn, now), w, v, r)
    ensures EffectOutcome(w, v, c, stage, turn, now, r)
  {
    if c.job in w.jobs && Mine(w.jobs[c.job], c) && Overtime(w.jobs[c.job], now) {
      TerminaliseEnds(w, c.job, "deadline", now);
    }
  }

  // ---- enqueue --------------------------------------------------------------------------

  predicate SameSpec(j: Job, s: Spec) {
    j.kind == s.kind && j.stage == s.stage && j.payload == s.payload && j.chain == s.chain
  }

  /** The fence is the live claim of a job of that stage and turn, before its deadline. */
  predicate Fenced(w: World, fence: Option<(Claim, string)>, turn: Option<string>, now: int) {
    fence.Some? ==>
      var c := fence.value.0;
      && c.job in w.jobs && Mine(w.jobs[c.job], c) && LeaseAhead(w.jobs[c.job], now) && !Overtime(w.jobs[c.job], now)
      && w.jobs[c.job].stage == fence.value.1
      && (turn.Some? ==> turn == w.jobs[c.job].payload.turnId)
  }

  /**
   * A new key gets a pending row without attempts; a known one answers for the same request only, and changes nothing.
   */
  ghost predicate EnqueueOutcome(w: World, v: World, id: JobId, s: Spec, fence: Option<(Claim, string)>, now: int,
                                 ok: bool)
  {
    && (ok <==> 1 <= s.maxAttempts <= 100 && Fenced(w, fence, s.payload.turnId, now)
                && (id in w.jobs ==> SameSpec(w.jobs[id], s)))
    && (!ok || id in w.jobs ==> v == w)
    && (ok && id !in w.jobs ==>
          && id in v.jobs && v == w.(jobs := w.jobs[id := v.jobs[id]])
          && var j := v.jobs[id];
             && SameSpec(j, s) && j.maxAttempts == s.maxAttempts && j.deadline == s.deadline
             && j.nextAttempt == s.nextAttempt && j.createdAt == now && j.status == Pending && j.attemptCount == 0
             && j.owner.None? && j.token.None? && j.leaseExpires.None? && j.receipt.None? && j.lastError.None?
             && j.completedAt.None?)
  }

  lemma WhenEnqueued(w: World, id: JobId, s: Spec, fence: Option<(Claim, string)>, now: int)
    ensures var spec := EnqueueJob(w, id, s, fence, now);
            EnqueueOutcome(w, if spec.Ok? then spec.value else w, id, s, fence, now, spec.Ok?)
  {
    if fence.Some? {
      var c := fence.value.0;
      var checked := AssertEffect(w, c, Some(fence.value.1), s.payload.turnId, now);
      WhenEffectPasses(w, c, Some(fence.value.1), s.payload.turnId, now,
                       if checked.Ok? then checked.value.0 else w,
                       if checked.Ok? then Ok(checked.value.1) else Err(checked.error));
    }
  }

  // ---- complete -------------------------------------------------------------------------

  predicate NamesJob(id: JobId, r: Receipt) {
    (r.jobId.None? || r.jobId.value == id) && (r.key.None? || r.key.value == id)
  }

  predicate WellFormed(r: Receipt) {
    r.effectId != "" && (r.status == "accepted" || r.status == "succeeded" || r.status == "not_required")
  }

  predicate Completes(id: JobId, j: Job, r: Receipt, stored: Option<Receipt>) {
    && stored.Some? && stored.value.effectId == r.effectId && stored.value.status == r.status
    && stored.value.rest == r.rest && stored.value.jobId == Some(id) && stored.value.key == Some(id)
    && stored.value.stage == Some(if r.stage.Some? then r.stage.value else j.stage)
  }

  /** The claim is that of the attempt which ended the job. */
  predicate EndedIt(w: World, c: Claim) {
    c.job in w.jobs && c.token == Issued(c.job, w.jobs[c.job].attemptCount) &&
    var k := (c.job, w.jobs[c.job].attemptCount);
    k in w.attempts && w.attempts[k].owner == c.owner && (w.attempts[k].outcome == Won || w.attempts[k].outcome == Lost)
  }

  predicate TooLate(j: Job) {
    j.status == FailedPermanent && (j.lastError == Some("deadline") || j.lastError == Some("max_attempts"))
  }

  /**
   * What a report of success after the end is answered: the winner may repeat its receipt, or learn that it was late.
   */
  predicate Repeats(w: World, c: Claim, receipt: Receipt, r: Result<(), Error>)
    requires c.job in w.jobs
  {
    var j := w.jobs[c.job];
    if !EndedIt(w, c) then r == Err(LeaseConflict)
    else if j.status == Succeeded && !Completes(c.job, j, receipt, j.receipt) then r == Err(Conflict)
    else r == Ok(())
  }

  ghost predicate CompleteOutcome(w: World, v: World, c: Claim, receipt: Receipt, now: int, r: Result<(), Error>) {
    if c.job !in w.jobs then r == Err(NotFound) && v == w
    else if !NamesJob(c.job, receipt) then r == Err(Conflict) && v == w
    else if !WellFormed(receipt) then r == Err(Invalid) && v == w
    else if w.jobs[c.job].status == Succeeded || TooLate(w.jobs[c.job]) then v == w && Repeats(w, c, receipt, r)
    else ActiveOutcome(w, v, c, receipt, now, r)
  }

  ghost predicate ActiveOutcome(w: World, v: World, c: Claim, receipt: Receipt, now: int, r: Result<(), Error>)
    requires c.job in w.jobs
  {
    var j := w.jobs[c.job];
    if Mine(j, c) && Overtime(j, now) then EndsOrRaises(w, v, c.job, "deadline", Some("deadline"), now, r)
    else if Mine(j, c) && LeaseAhead(j, now) then r == Ok(()) && Succeeds(w, v, c.job, receipt, now)
    else r == Err(LeaseConflict) && v == w
  }

  /** Only the job's row and its running attempt change. */
  ghost predicate Succeeds(w: World, v: World, id: JobId, receipt: Receipt, now: int) {
    && id in w.jobs && id in v.jobs
    && v == w.(jobs := w.jobs[id := v.jobs[id]], attempts := v.attempts)
    && v.jobs[id] == w.jobs[id].(status := Succeeded, owner := None, token := None, leaseExpires := None,
                                 receipt := v.jobs[id].receipt, completedAt := Some(now))
    && Completes(id, w.jobs[id], receipt, v.jobs[id].receipt)
    && AttemptClosed(w, v, id, Won, None, now)
  }

  lemma WhenReceiptBinds(id: JobId, j: Job, r: Receipt)
    ensures BindReceipt(id, j, r).Ok? <==> NamesJob(id, r) && WellFormed(r)
    ensures !NamesJob(id, r) ==> BindReceipt(id, j, r) == Err(Conflict)
    ensures NamesJob(id, r) && !WellFormed(r) ==> BindReceipt(id, j, r) == Err(Invalid)
  {
  }

  lemma WhatReceiptBinds(id: JobId, j: Job, r: Receipt, bound: Receipt, stored: Option<Receipt>)
    requires BindReceipt(id, j, r) == Ok(bound)
    ensures Completes(id, j, r, stored) <==> stored == Some(bound)
  {
  }

  lemma WhoEndedIt(w: World, c: Claim)
    requires Inv(w) && c.job in w.jobs
    ensures Winning(w, c) <==> EndedIt(w, c)
  {
    var n := w.jobs[c.job].attemptCount;
    assert JobInv(w, c.job);
    if Winning(w, c) {
      var k :| k in w.attempts && k.0 == c.job && w.attempts[k].outcome in {Won, Lost} &&
               w.attempts[k].owner == c.owner && w.attempts[k].token == c.token;
      assert (c.job, k.1) in w.attempts;
      assert k == (c.job, n);
    }
    if EndedIt(w, c) {
      var k := (c.job, n);
      assert (c.job, n) in w.attempts;
      forall m | m in w.attempts && m.0 == c.job && k.1 < m.1
        ensures w.attempts[m].outcome !in {Won, Lost}
      {
        assert (c.job, m.1) in w.attempts;
      }
    }
  }

  lemma WhenCompleted(w: World, c: Claim, receipt: Receipt, now: int, v: World, r: Result<(), Error>)
    requires Inv(w) && Answers(CompleteJob(w, c, receipt, now), w, v, r)
    ensures CompleteOutcome(w, v, c, receipt, now, r)
  {
    if c.job in w.jobs {
      WhenReceiptBinds(c.job, w.jobs[c.job], receipt);
      if NamesJob(c.job, receipt) && WellFormed(receipt) {
        if w.jobs[c.job].status == Succeeded || TooLate(w.jobs[c.job]) {
          WhenRepeated(w, c, receipt, now, v, r);
        } else {
          WhenActive(w, c, receipt, now, v, r);
        }
      }
    }
  }

  lemma WhenRepeated(w: World, c: Claim, receipt: Receipt, now: int, v: World, r: Result<(), Error>)
    requires Inv(w) && Answers(CompleteJob(w, c, receipt, now), w, v, r)
    requires c.job in w.jobs && (w.jobs[c.job].status == Succeeded || TooLate(w.jobs[c.job]))
    requires NamesJob(c.job, receipt) && WellFormed(receipt)
    ensures v == w && Repeats(w, c, receipt, r)
  {
    var j := w.jobs[c.job];
    WhenReceiptBinds(c.job, j, receipt);
    WhatReceiptBinds(c.job, j, receipt, BindReceipt(c.job, j, receipt).value, j.receipt);
    WhoEndedIt(w, c);
  }

  lemma LateCompletion(w: World, c: Claim, receipt: Receipt, now: int)
    requires c.job in w.jobs && Mine(w.jobs[c.job], c) && Overtime(w.jobs[c.job], now)
    requires BindReceipt(c.job, w.jobs[c.job], receipt).Ok?
    ensures CompleteJob(w, c, receipt, now) == Terminalise(w, c.job, "deadline", now)
  {
  }

  function WonRow(j: Job, bound: Receipt, now: int): Job {
    j.(status := Succeeded, owner := None, token := None, leaseExpires := None,
       receipt := Some(bound), completedAt := Some(now))
  }

  lemma LiveCompletion(w: World, c: Claim, receipt: Receipt, now: int, bound: Receipt)
    requires c.job in w.jobs && Mine(w.jobs[c.job], c) && LeaseAhead(w.jobs[c.job], now)
    requires !Overtime(w.jobs[c.job], now) && BindReceipt(c.job, w.jobs[c.job], receipt) == Ok(bound)
    ensures CompleteJob(w, c, receipt, now) ==
            Ok(FinishAttempt(w.(jobs := w.jobs[c.job := WonRow(w.jobs[c.job], bound, now)]),
                             c.job, w.jobs[c.job].attemptCount, Won, None, Some(bound), now))
  {
  }

  lemma NoCompletion(w: World, c: Claim, receipt: Receipt, now: int)
    requires c.job in w.jobs && w.jobs[c.job].status != Succeeded && !TooLate(w.jobs[c.job])
    requires BindReceipt(c.job, w.jobs[c.job], receipt).Ok?
    requires !Mine(w.jobs[c.job], c) || (!Overtime(w.jobs[c.job], now) && !LeaseAhead(w.jobs[c.job], now))
    ensures CompleteJob(w, c, receipt, now) == Err(LeaseConflict)
  {
  }

  lemma WhenActive(w: World, c: Claim, receipt: Receipt, now: int, v: World, r: Result<(), Error>)
    requires Inv(w) && Answers(CompleteJob(w, c, receipt, now), w, v, r)
    requires c.job in w.jobs && w.jobs[c.job].status != Succeeded && !TooLate(w.jobs[c.job])
    requires NamesJob(c.job, receipt) && WellFormed(receipt)
    ensures ActiveOutcome(w, v, c, receipt, now, r)
  {
    var j := w.jobs[c.job];
    WhenReceiptBinds(c.job, j, receipt);
    var bound := BindReceipt(c.job, j, receipt).value;
    if Mine(j, c) && Overtime(j, now) {
      LateCompletion(w, c, receipt, now);
      DeadlineEnds(w, c.job, now, v, r);
    } else if Mine(j, c) && LeaseAhead(j, now) {
      LiveCompletion(w, c, receipt, now, bound);
      LiveSucceeds(w, c.job, receipt, bound, now);
    } else {
      NoCompletion(w, c, receipt, now);
    }
  }

  lemma LiveSucceeds(w: World, id: JobId, receipt: Receipt, bound: Receipt, now: int)
    requires Inv(w) && id in w.jobs && BindReceipt(id, w.jobs[id], receipt) == Ok(bound)
    ensures var u := w.(jobs := w.jobs[id := WonRow(w.jobs[id], bound, now)]);
            Succeeds(w, FinishAttempt(u, id, w.jobs[id].attemptCount, Won, None, Some(bound), now), id, receipt, now)
  {
    WhatReceiptBinds(id, w.jobs[id], receipt, bound, Some(bound));
    assert JobInv(w, id);
    FinishCloses(w, w.(jobs := w.jobs[id := WonRow(w.jobs[id], bound, now)]), id, Won, None, Some(bound), now);
  }

  // ---- fail and recover -----------------------------------------------------------------

  /** Seconds before the next attempt, when the worker names none. */
  function DelayAfter(attempts: nat): int {
    match attempts
    case 0 => 1
    case 1 => 2
    case 2 => 4
    case 3 => 8
    case 4 => 16
    case 5 => 32
    case 6 => 64
    case 7 => 128
    case _ => 256
  }

  lemma BackoffDoubles(n: nat)
    ensures Backoff(n) == DelayAfter(n)
  {
    assert Pow2(2) == 4 && Pow2(4) == 16 && Pow2(6) == 64 && Pow2(8) == 256;
  }

  /** The job waits for `at`; only its row and its running attempt change. */
  ghost predicate Requeues(w: World, v: World, id: JobId, at: int, error: Option<string>, outcome: Outcome,
                           kind: Option<string>, now: int)
  {
    && id in w.jobs && id in v.jobs
    && v == w.(jobs := w.jobs[id := v.jobs[id]], attempts := v.attempts)
    && v.jobs[id] == w.jobs[id].(status := RetryWait, owner := None, token := None, leaseExpires := None,
                                 nextAttempt := at, lastError := error, completedAt := v.jobs[id].completedAt)
    && AttemptClosed(w, v, id, outcome, kind, now)
  }

  ghost predicate FailOutcome(w: World, v: World, c: Claim, error: string, retryable: bool, retryAfter: Option<nat>,
                              now: int, r: Result<(), Error>)
  {
    if c.job !in w.jobs then r == Err(NotFound) && v == w
    else
      var j := w.jobs[c.job];
      if !Mine(j, c) then r == Err(LeaseConflict) && v == w
      else if Overtime(j, now) then EndsOrRaises(w, v, c.job, "deadline", Some("deadline"), now, r)
      else if !LeaseAhead(j, now) then r == Err(LeaseConflict) && v == w
      else LiveOutcome(w, v, c.job, error, retryable, retryAfter, now, r)
  }

  ghost predicate LiveOutcome(w: World, v: World, id: JobId, error: string, retryable: bool, retryAfter: Option<nat>,
                              now: int, r: Result<(), Error>)
    requires id in w.jobs
  {
    var j := w.jobs[id];
    if retryable && j.attemptCount < j.maxAttempts then
      var delay := if retryAfter.Some? then retryAfter.value else DelayAfter(j.attemptCount);
      r == Ok(()) && Requeues(w, v, id, now + 1000 * delay, Some(error), WaitingRetry, Some(error), now)
    else EndsOrRaises(w, v, id, error, Some(error), now, r)
  }

  function RetryRow(j: Job, at: int, error: Option<string>): Job {
    j.(status := RetryWait, owner := None, token := None, leaseExpires := None,
       nextAttempt := at, lastError := error, completedAt := None)
  }

  lemma LateFailure(w: World, c: Claim, error: string, retryable: bool, retryAfter: Option<nat>, now: int)
    requires c.job in w.jobs && Mine(w.jobs[c.job], c) && Overtime(w.jobs[c.job], now)
    ensures FailJob(w, c, error, retryable, retryAfter, now) == Terminalise(w, c.job, "deadline", now)
  {
  }

  lemma LiveFailure(w: World, c: Claim, error: string, retryable: bool, retryAfter: Option<nat>, now: int)
    requires c.job in w.jobs && Mine(w.jobs[c.job], c) && !Overtime(w.jobs[c.job], now)
    requires LeaseAhead(w.jobs[c.job], now)
    ensures var j := w.jobs[c.job];
            var n := j.attemptCount;
            FailJob(w, c, error, retryable, retryAfter, now) ==
            if retryable && n < j.maxAttempts then
              var delay := if retryAfter.Some? then retryAfter.value else DelayAfter(n);
              Ok(FinishAttempt(w.(jobs := w.jobs[c.job := RetryRow(j, now + 1000 * delay, Some(error))]),
                               c.job, n, WaitingRetry, Some(error), None, now))
            else
              ProjectTerminal(FinishAttempt(w.(jobs := w.jobs[c.job := FailedRow(j, error, now).(nextAttempt := now)]),
                                            c.job, n, Lost, Some(error), None, now), j, now)
  {
    BackoffDoubles(w.jobs[c.job].attemptCount);
  }

  lemma WhenFailed(w: World, c: Claim, error: string, retryable: bool, retryAfter: Option<nat>, now: int, v: World,
                   r: Result<(), Error>)
    requires Inv(w) && Answers(FailJob(w, c, error, retryable, retryAfter, now), w, v, r)
    ensures FailOutcome(w, v, c, error, retryable, retryAfter, now, r)
  {
    if c.job in w.jobs && Mine(w.jobs[c.job], c) {
      var j := w.jobs[c.job];
      if Overtime(j, now) {
        LateFailure(w, c, error, retryable, retryAfter, now);
        DeadlineEnds(w, c.job, now, v, r);
      } else if LeaseAhead(j, now) {
        WhenLiveFailed(w, c, error, retryable, retryAfter, now, v, r);
      }
    }
  }

  lemma WhenLiveFailed(w: World, c: Claim, error: string, retryable: bool, retryAfter: Option<nat>, now: int, v: World,
                       r: Result<(), Error>)
    requires Inv(w) && Answers(FailJob(w, c, error, retryable, retryAfter, now), w, v, r)
    requires c.job in w.jobs && Mine(w.jobs[c.job], c) && !Overtime(w.jobs[c.job], now)
    requires LeaseAhead(w.jobs[c.job], now)
    ensures LiveOutcome(w, v, c.job, error, retryable, retryAfter, now, r)
  {
    var j := w.jobs[c.job];
    LiveFailure(w, c, error, retryable, retryAfter, now);
    if retryable && j.attemptCount < j.maxAttempts {
      var delay := if retryAfter.Some? then retryAfter.value else DelayAfter(j.attemptCount);
      RetryRequeues(w, c.job, now + 1000 * delay, error, now);
    } else {
      FailureEnds(w, c.job, error, now, v, r);
    }
  }

  lemma RetryRequeues(w: World, id: JobId, at: int, error: string, now: int)
    requires Inv(w) && id in w.jobs
    ensures var u := w.(jobs := w.jobs[id := RetryRow(w.jobs[id], at, Some(error))]);
            var v := FinishAttempt(u, id, w.jobs[id].attemptCount, WaitingRetry, Some(error), None, now);
            Requeues(w, v, id, at, Some(error), WaitingRetry, Some(error), now)
  {
    assert JobInv(w, id);
    var u := w.(jobs := w.jobs[id := RetryRow(w.jobs[id], at, Some(error))]);
    FinishCloses(w, u, id, WaitingRetry, Some(error), None, now);
  }

  lemma FailureEnds(w: World, id: JobId, error: string, now: int, v: World, r: Result<(), Error>)
    requires Inv(w) && id in w.jobs
    requires var row := FailedRow(w.jobs[id], error, now).(nextAttempt := now);
             var m := FinishAttempt(w.(jobs := w.jobs[id := row]),
                                    id, w.jobs[id].attemptCount, Lost, Some(error), None, now);
             Answers(ProjectTerminal(m, w.jobs[id], now), w, v, r)
    ensures EndsOrRaises(w, v, id, error, Some(error), now, r)
  {
    var row := FailedRow(w.jobs[id], error, now).(nextAttempt := now);
    var u := w.(jobs := w.jobs[id := row]);
    assert JobInv(w, id);
    FinishCloses(w, u, id, Lost, Some(error), None, now);
    var m := FinishAttempt(u, id, w.jobs[id].attemptCount, Lost, Some(error), None, now);
    ProjectionEnds(w, m, id, row, error, Some(error), now);
    EndingAnswers(w, id, error, Some(error), now, ProjectTerminal(m, w.jobs[id], now), v, r);
  }

  /** An expired lease: the job is runnable again at once, or ends if its deadline or its last attempt is behind it. */
  ghost predicate RecoverOutcome(w: World, v: World, id: JobId, now: int, ok: bool) {
    id in w.jobs &&
    var j := w.jobs[id];
    if Overtime(j, now) || j.attemptCount >= j.maxAttempts then
      if HistoryTaken(w, j) then !ok && v == w
      else ok && EndsJob(w, v, id, if Overtime(j, now) then "deadline" else "lease_expired", None, now)
    else ok && Requeues(w, v, id, now, j.lastError, Reclaimed, None, now)
  }

  lemma WhenRecovered(w: World, id: JobId, now: int)
    requires Inv(w) && id in w.jobs && w.jobs[id].status == Claimed
    ensures var spec := RecoverOne(w, id, now);
            RecoverOutcome(w, if spec.Ok? then spec.value else w, id, now, spec.Ok?)
  {
    var j := w.jobs[id];
    if Overtime(j, now) || j.attemptCount >= j.maxAttempts {
      RecoveryEnds(w, id, if Overtime(j, now) then "deadline" else "lease_expired", now);
    } else {
      RecoveryRequeues(w, id, now, RecoverOne(w, id, now).value);
    }
  }

  lemma RecoveryEnds(w: World, id: JobId, error: string, now: int)
    requires Inv(w) && id in w.jobs
    ensures var m := FinishAttempt(w.(jobs := w.jobs[id := FailedRow(w.jobs[id], error, now)]),
                                   id, w.jobs[id].attemptCount, Lost, None, None, now);
            var p := ProjectTerminal(m, w.jobs[id], now);
            if HistoryTaken(w, w.jobs[id]) then p == Err(Conflict)
            else p.Ok? && EndsJob(w, p.value, id, error, None, now)
  {
    var row := FailedRow(w.jobs[id], error, now);
    var u := w.(jobs := w.jobs[id := row]);
    assert JobInv(w, id);
    FinishCloses(w, u, id, Lost, None, None, now);
    var m := FinishAttempt(u, id, w.jobs[id].attemptCount, Lost, None, None, now);
    ProjectionEnds(w, m, id, row, error, None, now);
  }

  lemma RecoveryRequeues(w: World, id: JobId, now: int, v: World)
    requires Inv(w) && id in w.jobs && !Overtime(w.jobs[id], now) && w.jobs[id].attemptCount < w.jobs[id].maxAttempts
    requires RecoverOne(w, id, now) == Ok(v)
    ensures Requeues(w, v, id, now, w.jobs[id].lastError, Reclaimed, None, now)
  {
    assert JobInv(w, id);
    FinishCloses(w, w.(jobs := w.jobs[id := v.jobs[id]]), id, Reclaimed, None, None, now);
  }
}
