/**
 * Whole runs of the worker: fencing of old tokens, one success per job, and
 * bounds on how much work a job, or the whole queue, can still cause.
 */
module WorkerRuns {
  import opened Wrappers
  import opened WorkerLedger
  import opened WorkerInvariant

  // ---- the ledger invariant in every reachable state --------------------------------

  lemma {:induction false} RunKeeps(w: World, steps: seq<Step>)
    requires Inv(w)
    ensures Inv(Run(w, steps)) && Evolves(w, Run(w, steps))
    decreases |steps|
  {
    if steps == [] {
      SameLedger(w, w);
    } else {
      var front := steps[..|steps| - 1];
      RunKeeps(w, front);
      StepKeeps(Run(w, front), steps[|steps| - 1]);
      EvolvesTransitive(w, Run(w, front), Run(w, steps));
    }
  }

  /** The ledger of one job, as a reader of the two tables sees it. */
  ghost predicate LedgerFacts(w: World, id: JobId)
    requires id in w.jobs
  {
    var j := w.jobs[id];
    && j.attemptCount <= j.maxAttempts
    && (forall n: nat :: (id, n) in w.attempts <==> 1 <= n <= j.attemptCount)
    && (j.status == Claimed <==> exists n: nat :: (id, n) in w.attempts && w.attempts[(id, n)].outcome == Running)
    && (forall n: nat | (id, n) in w.attempts && w.attempts[(id, n)].outcome == Running ::
          && n == j.attemptCount
          && j.owner == Some(w.attempts[(id, n)].owner)
          && j.token == Some(w.attempts[(id, n)].token))
    && (j.status == Pending || j.status == RetryWait ==> j.attemptCount < j.maxAttempts)
    && (forall n: nat | (id, n) in w.attempts && w.attempts[(id, n)].outcome in {Won, Lost} ::
          && n == j.attemptCount
          && j.status == (if w.attempts[(id, n)].outcome == Won then Succeeded else FailedPermanent))
    && (j.status == Succeeded ==>
          (id, j.attemptCount) in w.attempts && w.attempts[(id, j.attemptCount)].receipt == j.receipt)
  }

  /** From empty ledger tables every run, with any interference on the other tables, keeps the ledger facts. */
  lemma LedgerInEveryRun(w: World, steps: seq<Step>, id: JobId)
    requires w.jobs == map[] && w.attempts == map[] && id in Run(w, steps).jobs
    ensures LedgerFacts(Run(w, steps), id)
  {
    RunKeeps(w, steps);
    FactsFromInv(Run(w, steps), id);
  }

  lemma FactsFromInv(w: World, id: JobId)
    requires Inv(w) && id in w.jobs
    ensures LedgerFacts(w, id)
  {
    assert JobInv(w, id);
    var j := w.jobs[id];
    if j.status == Claimed {
      assert (id, j.attemptCount) in w.attempts;
    }
    forall n: nat | (id, n) in w.attempts
      ensures w.attempts[(id, n)].outcome == Running <==> j.status == Claimed && n == j.attemptCount
    {
      OnlyNewestRuns(w, id, (id, n));
    }
  }

  // ---- fencing -----------------------------------------------------------------------

  /** Token `n` of the job was issued and is no longer the claimed attempt. */
  predicate Stale(w: World, id: JobId, n: nat) {
    id in w.jobs && n <= w.jobs[id].attemptCount && !(w.jobs[id].status == Claimed && w.jobs[id].attemptCount == n)
  }

  lemma StaleStays(w: World, v: World, id: JobId, n: nat)
    requires Inv(w) && Inv(v) && Evolves(w, v) && Stale(w, id, n)
    ensures Stale(v, id, n)
  {
    assert JobInv(w, id) && JobInv(v, id);
    assert Moves(w.jobs[id], v.jobs[id]);
  }

  lemma HolderIsNewest(w: World, c: Claim)
    requires Inv(w) && Holds(w, c)
    ensures c.token == Issued(c.job, w.jobs[c.job].attemptCount)
  {
    assert JobInv(w, c.job);
  }

  /** The claim a step presents, if it presents one. */
  function Presented(s: Step): Option<Claim> {
    match s
    case Enqueue(_, _, fence, _) => if fence.Some? then Some(fence.value.0) else None
    case Renew(c, _, _) => Some(c)
    case Effect(c, _, _, _) => Some(c)
    case Complete(c, _, _) => Some(c)
    case Fail(c, _, _, _, _) => Some(c)
    case _ => None
  }

  predicate Presents(s: Step, t: Token) {
    Presented(s).Some? && Presented(s).value.token == t
  }

  /** A claim that does not hold its job commits nothing. */
  lemma NotHeldIsPowerless(w: World, s: Step, c: Claim)
    requires Presented(s) == Some(c) && !Holds(w, c)
    ensures Next(w, s) == w
    ensures s.Effect? || s.Fail? || s.Enqueue? ==> Commit(w, s).Err?
    ensures s.Renew? ==> RenewLease(w, s.claim, s.lease, s.now) == Ok((w, false))
  {
    if s.Complete? {
      NotHeldCompletes(w, c, s.receipt, s.now);
    }
  }

  lemma NotHeldCompletes(w: World, c: Claim, receipt: Receipt, now: int)
    requires !Holds(w, c)
    ensures CompleteJob(w, c, receipt, now).Ok? ==> CompleteJob(w, c, receipt, now).value == w
  {
  }

  /** Presented by anyone, for any job, a stale token changes nothing and proves nothing. */
  lemma StaleIsPowerless(w: World, id: JobId, n: nat, s: Step)
    requires Inv(w) && Stale(w, id, n) && Presents(s, Issued(id, n))
    ensures Next(w, s) == w
    ensures s.Effect? || s.Fail? || s.Enqueue? ==> Commit(w, s).Err?
    ensures s.Renew? ==> RenewLease(w, s.claim, s.lease, s.now) == Ok((w, false))
  {
    var c := Presented(s).value;
    if Holds(w, c) {
      HolderIsNewest(w, c);
      assert false;
    }
    NotHeldIsPowerless(w, s, c);
  }

  /** Once a later attempt is claimed or the job has left the claim, its old token is dead for the rest of the run. */
  lemma FencedForever(w: World, steps: seq<Step>, id: JobId, n: nat, s: Step)
    requires Inv(w) && Stale(w, id, n) && Presents(s, Issued(id, n))
    ensures Next(Run(w, steps), s) == Run(w, steps)
    ensures s.Effect? || s.Fail? || s.Enqueue? ==> Commit(Run(w, steps), s).Err?
  {
    RunKeeps(w, steps);
    StaleStays(w, Run(w, steps), id, n);
    StaleIsPowerless(Run(w, steps), id, n, s);
  }

  /** A token nobody was ever issued does nothing either. */
  lemma ForeignIsPowerless(w: World, text: string, s: Step)
    requires Inv(w) && Presents(s, Foreign(text))
    ensures Next(w, s) == w
  {
    var c := Presented(s).value;
    if Holds(w, c) {
      HolderIsNewest(w, c);
      assert false;
    }
    NotHeldIsPowerless(w, s, c);
  }

  // ---- success -----------------------------------------------------------------------

  /** Only a live claim's `complete`, before both its lease end and the deadline, makes a job succeed. */
  lemma HowJobsSucceed(w: World, s: Step, id: JobId)
    requires Inv(w) && id in w.jobs && w.jobs[id].status != Succeeded
    requires id in Next(w, s).jobs && Next(w, s).jobs[id].status == Succeeded
    ensures s.Complete? && s.claim.job == id && Live(w, s.claim, s.now) && !Reached(w.jobs[id].deadline, s.now)
    ensures BindReceipt(id, w.jobs[id], s.receipt).Ok?
    ensures Next(w, s).jobs[id].receipt == Some(BindReceipt(id, w.jobs[id], s.receipt).value)
  {
    StepKeeps(w, s);
    if s.Complete? && Commit(w, s).Ok? {
      CompleteKeeps(w, s.claim, s.receipt, s.now);
    }
  }

  /** A job that has ended keeps its row, receipt included, through any further run. */
  lemma EndedForever(w: World, steps: seq<Step>, id: JobId)
    requires Inv(w) && id in w.jobs && Terminal(w.jobs[id])
    ensures id in Run(w, steps).jobs && Run(w, steps).jobs[id] == w.jobs[id]
  {
    RunKeeps(w, steps);
    assert Moves(w.jobs[id], Run(w, steps).jobs[id]);
  }

  // ---- fuel of one job ------------------------------------------------------------------

  predicate Changed(j: Job, k: Job) {
    j.status != k.status || j.attemptCount != k.attemptCount
  }

  /** How many steps of the run changed the job's status or attempt count. */
  ghost function Changes(w: World, steps: seq<Step>, id: JobId): nat
    requires Inv(w) && id in w.jobs
    decreases |steps|
  {
    if steps == [] then 0
    else
      var front := steps[..|steps| - 1];
      RunKeeps(w, front); RunKeeps(w, steps);
      Changes(w, front, id) + if Changed(Run(w, front).jobs[id], Run(w, steps).jobs[id]) then 1 else 0
  }

  lemma FuelStep(w: World, s: Step, id: JobId)
    requires Inv(w) && id in w.jobs
    ensures id in Next(w, s).jobs
    ensures Fuel(Next(w, s).jobs[id]) + (if Changed(w.jobs[id], Next(w, s).jobs[id]) then 1 else 0) <= Fuel(w.jobs[id])
  {
    StepKeeps(w, s);
    assert Moves(w.jobs[id], Next(w, s).jobs[id]);
  }

  lemma {:induction false} FuelBoundsChanges(w: World, steps: seq<Step>, id: JobId)
    requires Inv(w) && id in w.jobs
    ensures id in Run(w, steps).jobs
    ensures Changes(w, steps, id) + Fuel(Run(w, steps).jobs[id]) <= Fuel(w.jobs[id])
    decreases |steps|
  {
    RunKeeps(w, steps);
    if steps != [] {
      var front := steps[..|steps| - 1];
      FuelBoundsChanges(w, front, id);
      RunKeeps(w, front);
      FuelStep(Run(w, front), steps[|steps| - 1], id);
    }
  }

  /** Whatever anyone does, a job changes status or attempt count at most twice per allowed attempt. */
  lemma ChangesAreBounded(w: World, steps: seq<Step>, id: JobId)
    requires Inv(w) && id in w.jobs
    ensures Changes(w, steps, id) <= 2 * w.jobs[id].maxAttempts
  {
    FuelBoundsChanges(w, steps, id);
    RunKeeps(w, steps);
    assert JobInv(w, id) && JobInv(Run(w, steps), id);
  }
}
