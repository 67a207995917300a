/**
 * The provider fallback executor (recorder_next/adapters.py:3174-3271). Providers and the monotonic clock
 * are an environment that answers anything; the record of its calls is what the outcome is proved against.
 */
module ProviderChain {
  import opened Wrappers

  /** `retries` and `timeout` are within the bounds checked at recorder_next/adapters.py:3052-3055. */
  datatype Target = Target(alias: string, retries: nat, timeout: real) {
    predicate Valid() {
      retries <= 10 && 0.0 < timeout <= 300.0
    }
  }

  /** Good: a well-formed result. Bad: a result that fails validation. TimedOut: a transport exception. */
  datatype Answer =
    | Good(value: string)
    | Bad(kind: string)
    | Failure(kind: string, retryable: bool, code: Option<int>)
    | TimedOut
    | Crashed

  datatype Slot = Slot(target: nat, attempt: nat)

  datatype Call = Call(slot: Slot, generation: nat, started: real, timeout: real, ended: real, answer: Answer)

  datatype Word = RetryableFailure | PermanentFailure | DeadlineStatus

  datatype Status = Status(alias: string, word: Word, retryCount: nat, error: Option<string>, code: Option<int>)

  datatype Outcome =
    | Returned(value: string, winner: string, fallbackCount: nat, retryCount: nat)
    | ChainFailure(kind: string, statuses: seq<Status>, retryable: bool)

  // ---- which failures move on ---------------------------------------------------------------

  predicate HttpStatusIsRetryable(code: int) {
    code in {408, 409, 425, 429} || 500 <= code <= 599
  }

  predicate Unavailable(kind: string) {
    kind == "provider_unavailable" || kind == "unavailable" || kind == "capacity"
  }

  predicate EligibleKind(kind: string) {
    kind in {"transport", "dns", "connect", "timeout", "rate_limited", "server", "response_framing"}
    || Unavailable(kind)
  }

  predicate Eligible(a: Answer)
    requires a.Failure?
  {
    && !(a.code.Some? && 400 <= a.code.value < 500 && !HttpStatusIsRetryable(a.code.value))
    && ((a.retryable && EligibleKind(a.kind)) || Unavailable(a.kind))
  }

  /** The executor goes on after this call. The deadline is not looked at after a transport exception. */
  predicate Passed(c: Call, deadline: real) {
    c.answer.TimedOut? || (c.answer.Failure? && c.ended < deadline && Eligible(c.answer))
  }

  function ErrorKind(a: Answer): Option<string> {
    match a
    case Failure(kind, _, _) => Some(kind)
    case TimedOut => Some("transport")
    case Crashed => Some("provider_error")
    case _ => None
  }

  function ErrorCode(a: Answer): Option<int> {
    if a.Failure? then a.code else None
  }

  function StatusOf(t: Target, c: Call, word: Word): Status {
    Status(t.alias, word, c.slot.attempt, ErrorKind(c.answer), ErrorCode(c.answer))
  }

  // ---- the order of calls -------------------------------------------------------------------

  function Attempts(t: Target): nat {
    t.retries + 1
  }

  /** All slots that come before attempt a of target i. */
  function SlotsBefore(targets: seq<Target>, i: nat, a: nat): seq<Slot>
    requires i <= |targets|
    decreases i, a
  {
    if a > 0 then SlotsBefore(targets, i, a - 1) + [Slot(i, a - 1)]
    else if i > 0 then SlotsBefore(targets, i - 1, Attempts(targets[i - 1]))
    else []
  }

  function SlotsOf(log: seq<Call>): (s: seq<Slot>)
    ensures |s| == |log|
    ensures forall n | 0 <= n < |log| :: s[n] == log[n].slot
  {
    if log == [] then [] else SlotsOf(log[..|log| - 1]) + [log[|log| - 1].slot]
  }

  /** The place of the last attempt of target j in the order of calls. */
  function LastPlace(targets: seq<Target>, j: nat): nat
    requires j < |targets|
  {
    |SlotsBefore(targets, j, targets[j].retries)|
  }

  /** One status for each of the first i targets, taken from its last attempt. */
  ghost predicate StatusesUpTo(targets: seq<Target>, log: seq<Call>, i: nat, statuses: seq<Status>)
    requires i <= |targets|
  {
    |statuses| == i &&
    forall j | 0 <= j < i ::
      LastPlace(targets, j) < |log| && statuses[j] == StatusOf(targets[j], log[LastPlace(targets, j)], RetryableFailure)
  }

  // ---- what a log says about the outcome ------------------------------------------------------

  predicate TimelyCall(targets: seq<Target>, c: Call, deadline: real) {
    && c.slot.target < |targets|
    && c.started < deadline
    && 0.0 < c.timeout <= targets[c.slot.target].timeout
    && c.started + c.timeout <= deadline
    && c.generation == 100 * c.slot.target + c.slot.attempt
  }

  /** The calls so far are the slots before (i, a), all of them timely, and all of them passed over. */
  ghost predicate Underway(targets: seq<Target>, deadline: real, log: seq<Call>, i: nat, a: nat) {
    && i <= |targets|
    && (forall c | c in log :: TimelyCall(targets, c, deadline) && Passed(c, deadline))
    && SlotsOf(log) == SlotsBefore(targets, i, a)
  }

  /** The outcome when the last call ended the run; `earlier` are the statuses of the targets before it. */
  function Ending(t: Target, c: Call, deadline: real, earlier: seq<Status>): Outcome
    requires !Passed(c, deadline)
  {
    match c.answer
    case Crashed => ChainFailure("provider_error", earlier + [StatusOf(t, c, PermanentFailure)], false)
    case Failure(kind, _, _) =>
      if c.ended >= deadline then ChainFailure("deadline", earlier + [StatusOf(t, c, DeadlineStatus)], false)
      else ChainFailure(kind, earlier + [StatusOf(t, c, PermanentFailure)], false)
    case Good(value) =>
      if c.ended >= deadline then ChainFailure("deadline", earlier + [StatusOf(t, c, DeadlineStatus)], false)
      else Returned(value, t.alias, c.slot.target, c.slot.attempt)
    case Bad(kind) =>
      if c.ended >= deadline then ChainFailure("deadline", earlier + [StatusOf(t, c, DeadlineStatus)], false)
      else ChainFailure(kind, earlier, false)
  }

  predicate AllUnavailable(statuses: seq<Status>) {
    forall s | s in statuses :: s.error.Some? && Unavailable(s.error.value)
  }

  function Exhausted(statuses: seq<Status>): Outcome {
    ChainFailure(if AllUnavailable(statuses) then "provider_unavailable" else "all_targets_failed", statuses, true)
  }

  /** The run stood at slot (i, a) and its statuses were `earlier` when it ended. */
  ghost predicate EndsAt(targets: seq<Target>, deadline: real, log: seq<Call>, now: real, r: Outcome,
                         i: nat, a: nat, earlier: seq<Status>)
  {
    && i < |targets| && a < Attempts(targets[i])
    && StatusesUpTo(targets, log, i, earlier)
    && if log != [] && !Passed(log[|log| - 1], deadline)
       then var c := log[|log| - 1];
            && Underway(targets, deadline, log[..|log| - 1], i, a)
            && TimelyCall(targets, c, deadline) && c.slot == Slot(i, a)
            && r == Ending(targets[i], c, deadline, earlier)
       else && Underway(targets, deadline, log, i, a)
            && now >= deadline && r == ChainFailure("deadline", earlier, false)
  }

  ghost predicate RunsOut(targets: seq<Target>, deadline: real, log: seq<Call>, r: Outcome, statuses: seq<Status>) {
    && Underway(targets, deadline, log, |targets|, 0)
    && StatusesUpTo(targets, log, |targets|, statuses)
    && r == Exhausted(statuses)
  }

  /** The log of a run accounts for its outcome. */
  ghost predicate Explains(targets: seq<Target>, deadline: real, log: seq<Call>, now: real, r: Outcome) {
    || (exists statuses :: RunsOut(targets, deadline, log, r, statuses))
    || (exists i: nat, a: nat, earlier: seq<Status> :: EndsAt(targets, deadline, log, now, r, i, a, earlier))
  }

  // ---- what follows -------------------------------------------------------------------------

  function CallsTo(slots: seq<Slot>, j: nat): nat {
    if slots == [] then 0
    else CallsTo(slots[..|slots| - 1], j) + if slots[|slots| - 1].target == j then 1 else 0
  }

  lemma {:induction false} CallsInOrder(targets: seq<Target>, i: nat, a: nat, j: nat)
    requires i <= |targets|
    ensures CallsTo(SlotsBefore(targets, i, a), j) ==
            if j < i then Attempts(targets[j]) else if j == i then a else 0
    decreases i, a
  {
    if a > 0 {
      CallsInOrder(targets, i, a - 1, j);
      var front := SlotsBefore(targets, i, a - 1);
      assert (front + [Slot(i, a - 1)])[..|front|] == front;
    } else if i > 0 {
      CallsInOrder(targets, i - 1, Attempts(targets[i - 1]), j);
    }
  }

  lemma {:induction false} SlotsIncrease(targets: seq<Target>, i: nat, a: nat)
    requires i <= |targets| && (i < |targets| ==> a <= Attempts(targets[i])) && (i == |targets| ==> a == 0)
    requires forall t | t in targets :: t.Valid()
    ensures forall n | 0 <= n < |SlotsBefore(targets, i, a)| ::
              var s := SlotsBefore(targets, i, a)[n];
              100 * s.target + s.attempt < 100 * i + a && s.target <= i && s.attempt <= 10
    ensures forall m, n | 0 <= m < n < |SlotsBefore(targets, i, a)| ::
              var s, t := SlotsBefore(targets, i, a)[m], SlotsBefore(targets, i, a)[n];
              100 * s.target + s.attempt < 100 * t.target + t.attempt
    decreases i, a
  {
    if a > 0 {
      assert targets[i] in targets;
      SlotsIncrease(targets, i, a - 1);
    } else if i > 0 {
      assert targets[i - 1] in targets;
      SlotsIncrease(targets, i - 1, Attempts(targets[i - 1]));
    }
  }

  ghost predicate WonBy(targets: seq<Target>, deadline: real, log: seq<Call>, r: Outcome, i: nat, a: nat) {
    && i < |targets| && a < Attempts(targets[i])
    && r.Returned? && r == Returned(r.value, targets[i].alias, i, a)
    && |log| > 0
    && log[|log| - 1].slot == Slot(i, a) && log[|log| - 1].answer == Good(r.value) && log[|log| - 1].ended < deadline
    && var earlier := log[..|log| - 1];
       && SlotsOf(earlier) == SlotsBefore(targets, i, a)
       && forall c | c in earlier :: Passed(c, deadline)
  }

  /**
   * A result comes from target i at attempt a only after every earlier target was called exactly
   * retries + 1 times, in order, each time failing retryably; and the result says so.
   */
  lemma WinnerIsFirstToAnswer(targets: seq<Target>, deadline: real, log: seq<Call>, now: real, r: Outcome)
    requires Explains(targets, deadline, log, now, r) && r.Returned?
    ensures WonBy(targets, deadline, log, r, r.fallbackCount, r.retryCount)
    ensures forall j: nat | j < |targets| ::
              CallsTo(SlotsOf(log[..|log| - 1]), j) ==
              if j < r.fallbackCount then Attempts(targets[j]) else if j == r.fallbackCount then r.retryCount else 0
  {
    var i: nat, a: nat, earlier: seq<Status> :| EndsAt(targets, deadline, log, now, r, i, a, earlier);
    WinnerAt(targets, deadline, log, now, r, i, a, earlier);
    forall j: nat | j < |targets|
      ensures CallsTo(SlotsBefore(targets, i, a), j) == if j < i then Attempts(targets[j]) else if j == i then a else 0
    {
      CallsInOrder(targets, i, a, j);
    }
  }

  lemma WinnerAt(targets: seq<Target>, deadline: real, log: seq<Call>, now: real, r: Outcome, i: nat, a: nat,
                 earlier: seq<Status>)
    requires r.Returned? && EndsAt(targets, deadline, log, now, r, i, a, earlier)
    ensures i == r.fallbackCount && a == r.retryCount && WonBy(targets, deadline, log, r, i, a)
  {
  }

  /** No provider is called at or after the deadline, or after a failure that is not eligible. */
  lemma EveryCallIsLicensed(targets: seq<Target>, deadline: real, log: seq<Call>, now: real, r: Outcome)
    requires Explains(targets, deadline, log, now, r)
    ensures forall c | c in log :: TimelyCall(targets, c, deadline)
    ensures forall n | 0 <= n < |log| - 1 :: Passed(log[n], deadline)
  {
    if i: nat, a: nat, earlier: seq<Status> :| EndsAt(targets, deadline, log, now, r, i, a, earlier) {
      if log != [] {
        var front := log[..|log| - 1];
        assert log == front + [log[|log| - 1]];
        assert forall n | 0 <= n < |front| :: front[n] in front && front[n] == log[n];
        assert forall n | 0 <= n < |log| :: log[n] in log;
      }
    }
  }

  /** The generation numbers sent to providers never repeat within a run. */
  lemma GenerationsIncrease(targets: seq<Target>, deadline: real, log: seq<Call>, i: nat, a: nat)
    requires Underway(targets, deadline, log, i, a)
    requires (i < |targets| ==> a <= Attempts(targets[i])) && (i == |targets| ==> a == 0)
    requires forall t | t in targets :: t.Valid()
    ensures forall m, n | 0 <= m < n < |log| :: log[m].generation < log[n].generation
  {
    SlotsIncrease(targets, i, a);
    forall m, n | 0 <= m < n < |log|
      ensures log[m].generation < log[n].generation
    {
      assert log[m] in log && log[n] in log;
      assert SlotsOf(log)[m] == log[m].slot && SlotsOf(log)[n] == log[n].slot;
    }
  }

  /**
   * A failure is retryable exactly when every target was tried in full and failed retryably, and then
   * it carries one retryable status per target, in order, with the target's own retry count.
   */
  lemma RetryableMeansExhausted(targets: seq<Target>, deadline: real, log: seq<Call>, now: real, r: Outcome)
    requires Explains(targets, deadline, log, now, r) && r.ChainFailure?
    ensures r.retryable <==> exists statuses :: RunsOut(targets, deadline, log, r, statuses)
    ensures r.retryable ==>
              && |r.statuses| == |targets|
              && SlotsOf(log) == SlotsBefore(targets, |targets|, 0)
              && (forall j | 0 <= j < |targets| ::
                    && r.statuses[j].alias == targets[j].alias && r.statuses[j].word == RetryableFailure
                    && r.statuses[j].retryCount == targets[j].retries)
  {
    if statuses: seq<Status> :| RunsOut(targets, deadline, log, r, statuses) {
      forall j | 0 <= j < |targets|
        ensures statuses[j].retryCount == targets[j].retries
      {
        SlotAtPlace(targets, |targets|, 0, j);
        assert SlotsOf(log)[LastPlace(targets, j)] == log[LastPlace(targets, j)].slot;
      }
    }
  }

  lemma {:induction false} SlotAtPlace(targets: seq<Target>, i: nat, a: nat, j: nat)
    requires i <= |targets| && j < i
    ensures LastPlace(targets, j) < |SlotsBefore(targets, i, a)|
    ensures SlotsBefore(targets, i, a)[LastPlace(targets, j)] == Slot(j, targets[j].retries)
    decreases i, a
  {
    if a > 0 {
      SlotAtPlace(targets, i, a - 1, j);
    } else if j < i - 1 {
      SlotAtPlace(targets, i - 1, Attempts(targets[i - 1]), j);
    } else {
      assert SlotsBefore(targets, i, 0) == SlotsBefore(targets, j, targets[j].retries) + [Slot(j, targets[j].retries)];
    }
  }

  // ---- how runs end -------------------------------------------------------------------------

  /** A client error that repeating cannot cure: any 4xx but 408, 409, 425 and 429. */
  predicate Hopeless(code: Option<int>) {
    code.Some? && 400 <= code.value <= 499
    && code.value != 408 && code.value != 409 && code.value != 425 && code.value != 429
  }

  predicate SaysUnavailable(kind: string) {
    kind == "provider_unavailable" || kind == "unavailable" || kind == "capacity"
  }

  predicate SaysTransient(kind: string) {
    || kind == "transport" || kind == "dns" || kind == "connect" || kind == "timeout"
    || kind == "rate_limited" || kind == "server" || kind == "response_framing" || SaysUnavailable(kind)
  }

  /**
   * After this answer another call is made, if one is left: a lost connection, or in time a failure that may be cured.
   */
  predicate MovesOn(c: Call, deadline: real) {
    match c.answer
    case TimedOut => true
    case Failure(kind, retryable, code) =>
      c.ended < deadline && !Hopeless(code) && (SaysUnavailable(kind) || (retryable && SaysTransient(kind)))
    case _ => false
  }

  lemma WhichAnswersMoveOn(c: Call, deadline: real)
    ensures Passed(c, deadline) <==> MovesOn(c, deadline)
  {
  }

  lemma WhichCodesAreRetried(code: int)
    ensures HttpStatusIsRetryable(code) <==>
            code == 408 || code == 409 || code == 425 || code == 429 || 500 <= code < 600
  {
  }

  /** What the last call makes of the run. */
  predicate EndsWith(t: Target, c: Call, deadline: real, r: Outcome) {
    match c.answer
    case Good(value) =>
      if c.ended < deadline then r == Returned(value, t.alias, c.slot.target, c.slot.attempt)
      else FailsAs("deadline", r)
    case Bad(kind) => FailsAs(if c.ended < deadline then kind else "deadline", r)
    case Failure(kind, _, _) => FailsAs(if c.ended < deadline then kind else "deadline", r)
    case Crashed => FailsAs("provider_error", r)
    case TimedOut => false
  }

  predicate FailsAs(kind: string, r: Outcome) {
    r.ChainFailure? && r.kind == kind && !r.retryable
  }

  /** Every target was tried in full: retryable, and unavailable exactly if that is what each of them said last. */
  predicate GaveUp(targets: seq<Target>, log: seq<Call>, r: Outcome) {
    && r.ChainFailure? && r.retryable && |r.statuses| == |targets|
    && SlotsOf(log) == SlotsBefore(targets, |targets|, 0)
    && r.kind == (if forall s | s in r.statuses :: s.error.Some? && SaysUnavailable(s.error.value)
                  then "provider_unavailable" else "all_targets_failed")
  }

  /**
   * A run ends with its last call if that is the end of the matter; otherwise, every call having moved on, it ends
   * because all targets were tried, or because time is up.
   */
  lemma HowRunsEnd(targets: seq<Target>, deadline: real, log: seq<Call>, now: real, r: Outcome)
    requires Explains(targets, deadline, log, now, r)
    ensures if log != [] && !MovesOn(log[|log| - 1], deadline)
            then var c := log[|log| - 1];
                 c.slot.target < |targets| && EndsWith(targets[c.slot.target], c, deadline, r)
            else GaveUp(targets, log, r) || (FailsAs("deadline", r) && now >= deadline)
  {
    if log != [] {
      WhichAnswersMoveOn(log[|log| - 1], deadline);
      assert log[|log| - 1] in log;
    }
    if statuses: seq<Status> :| RunsOut(targets, deadline, log, r, statuses) {
      assert AllUnavailable(statuses) <==> forall s | s in statuses :: s.error.Some? && SaysUnavailable(s.error.value);
    } else {
      var i: nat, a: nat, earlier: seq<Status> :| EndsAt(targets, deadline, log, now, r, i, a, earlier);
    }
  }

  // ---- the executor -------------------------------------------------------------------------

  lemma PassOn(targets: seq<Target>, deadline: real, log: seq<Call>, c: Call, i: nat, a: nat, statuses: seq<Status>)
    requires i < |targets| && a < Attempts(targets[i])
    requires Underway(targets, deadline, log, i, a) && StatusesUpTo(targets, log, i, statuses)
    requires TimelyCall(targets, c, deadline) && c.slot == Slot(i, a) && Passed(c, deadline)
    ensures Underway(targets, deadline, log + [c], i, a + 1)
    ensures StatusesUpTo(targets, log + [c], i, statuses)
    ensures a == targets[i].retries ==>
              StatusesUpTo(targets, log + [c], i + 1, statuses + [StatusOf(targets[i], c, RetryableFailure)])
  {
    assert (log + [c])[..|log|] == log;
    assert |SlotsOf(log)| == |SlotsBefore(targets, i, a)|;
    forall j | 0 <= j < i
      ensures LastPlace(targets, j) < |log| && (log + [c])[LastPlace(targets, j)] == log[LastPlace(targets, j)]
    {
    }
  }

  lemma StopAt(targets: seq<Target>, deadline: real, log: seq<Call>, c: Call, i: nat, a: nat, statuses: seq<Status>,
               now: real)
    requires i < |targets| && a < Attempts(targets[i])
    requires Underway(targets, deadline, log, i, a) && StatusesUpTo(targets, log, i, statuses)
    requires TimelyCall(targets, c, deadline) && c.slot == Slot(i, a) && !Passed(c, deadline)
    ensures Explains(targets, deadline, log + [c], now, Ending(targets[i], c, deadline, statuses))
  {
    var full := log + [c];
    assert full[..|full| - 1] == log && full[|full| - 1] == c;
    forall j | 0 <= j < i
      ensures LastPlace(targets, j) < |log| && full[LastPlace(targets, j)] == log[LastPlace(targets, j)]
    {
    }
    assert EndsAt(targets, deadline, full, now, Ending(targets[i], c, deadline, statuses), i, a, statuses);
  }

  lemma OutOfTime(targets: seq<Target>, deadline: real, log: seq<Call>, i: nat, a: nat, statuses: seq<Status>,
                  now: real)
    requires i < |targets| && a < Attempts(targets[i])
    requires Underway(targets, deadline, log, i, a) && StatusesUpTo(targets, log, i, statuses) && now >= deadline
    ensures Explains(targets, deadline, log, now, ChainFailure("deadline", statuses, false))
  {
    if log != [] {
      assert log[|log| - 1] in log;
    }
    assert EndsAt(targets, deadline, log, now, ChainFailure("deadline", statuses, false), i, a, statuses);
  }

  /** Providers answer whatever they like and take as long as they like; the clock does not go back. */
  class Environment {
    var clock: real
    var log: seq<Call>

    constructor (start: real)
      ensures clock == start && log == []
    {
      clock, log := start, [];
    }

    method Monotonic() returns (now: real)
      modifies this`clock
      ensures now == clock >= old(clock)
    {
      var elapsed: real := *;
      now := if elapsed > 0.0 then clock + elapsed else clock;
      clock := now;
    }

    /** `ended` is what the clock shows at the first look after the call. */
    method Invoke(slot: Slot, generation: nat, timeout: real) returns (answer: Answer, ended: real)
      modifies this
      ensures ended == clock >= old(clock)
      ensures log == old(log) + [Call(slot, generation, old(clock), timeout, ended, answer)]
    {
      var elapsed: real := *;
      ended := if elapsed > 0.0 then clock + elapsed else clock;
      answer := *;
      log := log + [Call(slot, generation, clock, timeout, ended, answer)];
      clock := ended;
    }
  }

  class Chain {
    const targets: seq<Target>
    const overallDeadlineSeconds: real

    constructor (targets: seq<Target>, seconds: real)
      requires targets != [] && (forall t | t in targets :: t.Valid()) && 0.0 < seconds <= 1800.0
      ensures this.targets == targets && overallDeadlineSeconds == seconds && Valid()
    {
      this.targets, overallDeadlineSeconds := targets, seconds;
    }

    predicate Valid() {
      targets != [] && (forall t | t in targets :: t.Valid()) && 0.0 < overallDeadlineSeconds <= 1800.0
    }

    /** `frozenMatches` is false when a frozen chain was given and is not this one. */
    method Execute(env: Environment, frozenMatches: bool) returns (r: Outcome, ghost deadline: real)
      requires Valid() && env.log == []
      modifies env
      ensures deadline >= old(env.clock) + overallDeadlineSeconds
      ensures frozenMatches ==> Explains(targets, deadline, env.log, env.clock, r)
      ensures !frozenMatches ==> env.log == [] && r == ChainFailure("chain_changed", [], false)
    {
      if !frozenMatches {
        deadline := env.clock + overallDeadlineSeconds;
        return ChainFailure("chain_changed", [], false), deadline;
      }
      var started := env.Monotonic();
      var limit := started + overallDeadlineSeconds;
      deadline := limit;
      var statuses: seq<Status> := [];
      var index := 0;
      while index < |targets|
        invariant 0 <= index <= |targets|
        invariant Underway(targets, limit, env.log, index, 0) && StatusesUpTo(targets, env.log, index, statuses)
      {
        var attempts := Attempts(targets[index]);
        var attempt := 0;
        while attempt < attempts
          invariant 0 <= attempt <= attempts
          invariant Underway(targets, limit, env.log, index, attempt)
          invariant StatusesUpTo(targets, env.log, if attempt == attempts then index + 1 else index, statuses)
        {
          var end: Option<Outcome>;
          end, statuses := Attempt(env, index, attempt, limit, statuses);
          if end.Some? {
            return end.value, limit;
          }
          attempt := attempt + 1;
        }
        index := index + 1;
      }
      var kind := "all_targets_failed";
      if |statuses| > 0 && AllUnavailable(statuses) {
        kind := "provider_unavailable";
      }
      RetryableWords(targets, env.log, statuses);
      var retryable := |statuses| > 0 && forall s | s in statuses :: s.word == RetryableFailure;
      r := ChainFailure(kind, statuses, retryable);
      assert RunsOut(targets, limit, env.log, r, statuses);
    }

    /** One turn of the inner loop: a call, and what is made of its answer. */
    method Attempt(env: Environment, index: nat, attempt: nat, deadline: real, before: seq<Status>)
      returns (end: Option<Outcome>, statuses: seq<Status>)
      requires Valid() && index < |targets| && attempt < Attempts(targets[index])
      requires Underway(targets, deadline, env.log, index, attempt) && StatusesUpTo(targets, env.log, index, before)
      modifies env
      ensures end.Some? ==> Explains(targets, deadline, env.log, env.clock, end.value)
      ensures end.None? ==> Underway(targets, deadline, env.log, index, attempt + 1)
      ensures end.None? ==>
                var done := if attempt + 1 == Attempts(targets[index]) then index + 1 else index;
                StatusesUpTo(targets, env.log, done, statuses)
    {
      statuses := before;
      var target := targets[index];
      assert target in targets;
      var now := env.Monotonic();
      if now >= deadline {
        OutOfTime(targets, deadline, env.log, index, attempt, statuses, now);
        return Some(ChainFailure("deadline", statuses, false)), statuses;
      }
      now := env.Monotonic();
      var remaining := deadline - now;
      if remaining <= 0.0 {
        OutOfTime(targets, deadline, env.log, index, attempt, statuses, now);
        return Some(ChainFailure("deadline", statuses, false)), statuses;
      }
      end, statuses := TryOnce(env, index, attempt, deadline,
                               if remaining < target.timeout then remaining else target.timeout, before);
    }

    method TryOnce(env: Environment, index: nat, attempt: nat, deadline: real, timeout: real, before: seq<Status>)
      returns (end: Option<Outcome>, statuses: seq<Status>)
      requires index < |targets| && attempt < Attempts(targets[index])
      requires env.clock < deadline && 0.0 < timeout <= targets[index].timeout && env.clock + timeout <= deadline
      requires Underway(targets, deadline, env.log, index, attempt) && StatusesUpTo(targets, env.log, index, before)
      modifies env
      ensures end.Some? ==> Explains(targets, deadline, env.log, env.clock, end.value)
      ensures end.None? ==> Underway(targets, deadline, env.log, index, attempt + 1)
      ensures end.None? ==>
                var done := if attempt + 1 == Attempts(targets[index]) then index + 1 else index;
                StatusesUpTo(targets, env.log, done, statuses)
    {
      ghost var log, now := env.log, env.clock;
      var answer, ended := env.Invoke(Slot(index, attempt), index * 100 + attempt, timeout);
      ghost var c := Call(Slot(index, attempt), index * 100 + attempt, now, timeout, ended, answer);
      assert TimelyCall(targets, c, deadline);
      end, statuses := Judge(targets[index], answer, index, attempt, ended, deadline, before, c);
      if end.None? {
        PassOn(targets, deadline, log, c, index, attempt, before);
      } else {
        StopAt(targets, deadline, log, c, index, attempt, before, env.clock);
      }
    }
  }

  lemma RetryableWords(targets: seq<Target>, log: seq<Call>, statuses: seq<Status>)
    requires StatusesUpTo(targets, log, |targets|, statuses)
    ensures forall s | s in statuses :: s.word == RetryableFailure
  {
  }

  /** The exception handlers: the end of the run, or the statuses to go on with. */
  method Judge(target: Target, answer: Answer, index: nat, attempt: nat, now: real, deadline: real,
               before: seq<Status>, ghost c: Call)
    returns (end: Option<Outcome>, statuses: seq<Status>)
    requires c.slot == Slot(index, attempt) && c.ended == now && c.answer == answer
    ensures end.None? <==> Passed(c, deadline)
    ensures end.Some? ==> end.value == Ending(target, c, deadline, before)
    ensures end.None? ==> statuses == if attempt + 1 < Attempts(target) then before
                                      else before + [StatusOf(target, c, RetryableFailure)]
  {
    statuses := before;
    end := None;
    match answer {
      case Good(value) =>
        if now >= deadline {
          statuses := statuses + [Status(target.alias, DeadlineStatus, attempt, None, None)];
          return Some(ChainFailure("deadline", statuses, false)), statuses;
        }
        end := Some(Returned(value, target.alias, index, attempt));
      case Bad(kind) =>
        if now >= deadline {
          statuses := statuses + [Status(target.alias, DeadlineStatus, attempt, None, None)];
          return Some(ChainFailure("deadline", statuses, false)), statuses;
        }
        end := Some(ChainFailure(kind, statuses, false));
      case Failure(kind, retryable, code) =>
        if now >= deadline {
          statuses := statuses + [Status(target.alias, DeadlineStatus, attempt, Some(kind), code)];
          return Some(ChainFailure("deadline", statuses, false)), statuses;
        }
        var clientTerminal := code.Some? && 400 <= code.value < 500 && !HttpStatusIsRetryable(code.value);
        var eligible := !clientTerminal && ((retryable && EligibleKind(kind)) || Unavailable(kind));
        var status := Status(target.alias, if eligible then RetryableFailure else PermanentFailure, attempt,
                             Some(kind), code);
        if !eligible {
          statuses := statuses + [status];
          return Some(ChainFailure(kind, statuses, false)), statuses;
        }
        if attempt + 1 < Attempts(target) {
          return;
        }
        statuses := statuses + [status];
      case TimedOut =>
        if attempt + 1 < Attempts(target) {
          return;
        }
        statuses := statuses + [Status(target.alias, RetryableFailure, attempt, Some("transport"), None)];
      case Crashed =>
        statuses := statuses + [Status(target.alias, PermanentFailure, attempt, Some("provider_error"), None)];
        end := Some(ChainFailure("provider_error", statuses, false));
    }
  }
}
