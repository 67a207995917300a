/**
 * When each eavesdrop operation commits and what it writes, told from the rows and the arguments, and
 * what that means for runs: the routing agent's answer, and nothing else, decides what is forwarded.
 */
module EavesdropOutcomes {
  import opened Text
  import opened Wrappers
  import opened Eavesdrop
  import opened EavesdropSafety

  // ---- routing ------------------------------------------------------------------------------

  predicate SaysForward(agent: Answer) {
    agent.Answers? && agent.labelled && agent.outcome == "FORWARD_DEFAULT"
  }

  predicate SaysSilent(agent: Answer) {
    agent.Answers? && agent.labelled && agent.outcome == "STORE_SILENT"
  }

  predicate Routable(r: Room, agent: Answer) {
    !r.request.hermes || SaysForward(agent) || SaysSilent(agent)
  }

  /** Silent: a settled decision without binding or job. */
  predicate KeptSilent(r: Room, v: Room, k: nat, reason: string) {
    v == r.(decisions := r.decisions[k := Decision(StoreSilent, reason, StoredSilent, None)])
  }

  /** Forwarded: a queued decision, with the conversation frozen in a binding, and a Hermes job. */
  predicate Forwarded(r: Room, v: Room, k: nat, reason: string)
    requires k in r.segments
  {
    v == r.(decisions := r.decisions[k := Decision(ForwardDefault, reason, Queued, None)],
            bindings := r.bindings[k := Binding(r.segments[k].digest, Conversation(r.segments, k), None)],
            jobs := r.jobs + {k})
  }

  /** A segment without a decision gets the agent's; with Hermes disabled the agent is not asked. */
  predicate RouteOutcome(r: Room, k: nat, agent: Answer, v: Result<Room, Error>)
    requires k in r.segments
  {
    && (v.Ok? <==> k in r.decisions || Routable(r, agent))
    && (v.Err? ==> v.error == Invalid)
    && (v.Ok? && k in r.decisions ==> v.value == r)
    && (v.Ok? && k !in r.decisions ==>
          && (!r.request.hermes ==> KeptSilent(r, v.value, k, "hermes_disabled"))
          && (r.request.hermes && SaysForward(agent) ==> Forwarded(r, v.value, k, agent.reason))
          && (r.request.hermes && SaysSilent(agent) ==> KeptSilent(r, v.value, k, agent.reason)))
  }

  lemma WhenRouted(r: Room, k: nat, agent: Answer)
    requires k in r.segments
    ensures RouteOutcome(r, k, agent, RouteSegment(r, k, agent))
  {
  }

  // ---- appending ----------------------------------------------------------------------------

  predicate Accepts(r: Room, owner: Owner, u: Upload, now: int) {
    u.segment.length > 0 && owner == r.request.owner && r.state == Active && now < r.expires
  }

  predicate Repeats(r: Room, u: Upload, i: nat) {
    && i in r.segments
    && r.segments[i].digest == u.segment.digest && r.segments[i].length == u.segment.length
    && (u.segment.transcript == None || r.segments[i].transcript == u.segment.transcript)
  }

  /**
   * The segment is stored and counted; the text so far, the decision, its binding and job are as the other facts say.
   */
  predicate Stored(r: Room, u: Upload, v: Room) {
    && v.segments == r.segments[u.sequence := u.segment]
    && v.next == r.next + 1
    && v.request == r.request && v.key == r.key && v.expires == r.expires
    && v.state == r.state && v.replies == r.replies
  }

  /** Exactly one new decision, as the agent said; bindings and jobs grow by the segment exactly if it is forwarded. */
  predicate DecidedBy(r: Room, v: Room, k: nat, agent: Answer) {
    && k in v.decisions && v.decisions == r.decisions[k := v.decisions[k]]
    && (if r.request.hermes && SaysForward(agent) then
          && v.decisions[k] == Decision(ForwardDefault, agent.reason, Queued, None)
          && k in v.bindings && v.bindings == r.bindings[k := v.bindings[k]] && v.jobs == r.jobs + {k}
        else
          && v.decisions[k].outcome == StoreSilent && v.decisions[k].result == StoredSilent
          && v.decisions[k].reason == (if r.request.hermes && agent.Answers? then agent.reason else "hermes_disabled")
          && v.bindings == r.bindings && v.jobs == r.jobs)
  }

  /**
   * An upload is accepted as a repetition of the row found, or as the next segment; the agent decides about the latter.
   */
  predicate AppendOutcome(r: Room, owner: Owner, u: Upload, hit: Option<nat>, agent: Answer, now: int,
                          v: Result<Room, Error>)
  {
    match hit
    case Some(i) => (v.Ok? <==> Accepts(r, owner, u, now) && Repeats(r, u, i)) && (v.Ok? ==> v.value == r)
    case None =>
      && (v.Ok? <==> Accepts(r, owner, u, now) && u.sequence == r.next && Routable(r, agent))
      && (v.Ok? ==> Stored(r, u, v.value) && DecidedBy(r, v.value, u.sequence, agent))
  }

  lemma WhenAppended(r: Room, owner: Owner, u: Upload, hit: Option<nat>, agent: Answer, now: int)
    requires RoomInv(r) && Hits(r, u, hit)
    ensures AppendOutcome(r, owner, u, hit, agent, now, Append(r, owner, u, hit, agent, now))
  {
    if hit.None? && u.sequence == r.next {
      var m := AppendRow(r, u);
      assert u.sequence !in r.decisions.Keys;
      WhenRouted(m, u.sequence, agent);
      if Routable(r, agent) {
        RoutedDecides(r, m, RouteSegment(m, u.sequence, agent).value, u.sequence, agent);
      }
    }
  }

  lemma RoutedDecides(r: Room, m: Room, v: Room, k: nat, agent: Answer)
    requires k in m.segments && k !in m.decisions && Routable(m, agent)
    requires m.request == r.request && m.decisions == r.decisions && m.bindings == r.bindings && m.jobs == r.jobs
    requires RouteOutcome(m, k, agent, Ok(v))
    ensures DecidedBy(r, v, k, agent)
    ensures v.segments == m.segments && v.next == m.next && v.request == m.request && v.key == m.key
    ensures v.expires == m.expires && v.state == m.state && v.replies == m.replies
  {
  }

  // ---- what the agent's answers come to -------------------------------------------------------

  /** This upload made the decision, with this answer of the agent. */
  predicate AnsweredBy(op: Op, k: nat, d: Decision, hermes: bool) {
    && op.DoAppend? && op.upload.sequence == k
    && (if hermes then
          && (SaysForward(op.agent) || SaysSilent(op.agent))
          && (d.outcome == ForwardDefault <==> SaysForward(op.agent))
        else d.outcome == StoreSilent)
  }

  /** No operation but the upload of a segment makes a decision. */
  lemma NewDecisionIsAnswered(r: Room, op: Op, k: nat)
    requires RoomInv(r) && k in After(r, op).decisions && k !in r.decisions
    ensures AnsweredBy(op, k, After(r, op).decisions[k], r.request.hermes)
  {
    match op
    case DoAppend(owner, u, hit, agent, now) =>
      if Hits(r, u, hit) {
        WhenAppended(r, owner, u, hit, agent, now);
      }
    case DoRoute(owner, j, agent) => RouteAddsNothing(r, owner, j, agent, k);
    case _ => OldDecisionsOnly(r, op, k);
  }

  /** In a sound session there is nothing left to route. */
  lemma RouteAddsNothing(r: Room, owner: Owner, j: nat, agent: Answer, k: nat)
    requires RoomInv(r) && k in After(r, DoRoute(owner, j, agent)).decisions
    ensures k in r.decisions
  {
    assert j in r.segments.Keys ==> j in r.decisions.Keys;
  }

  lemma OldDecisionsOnly(r: Room, op: Op, k: nat)
    requires !op.DoAppend? && !op.DoRoute? && k in After(r, op).decisions
    ensures k in r.decisions
  {
  }

  lemma {:induction false} RunAnswers(r: Room, ops: seq<Op>, k: nat)
    requires RoomInv(r) && k in RunRoom(r, ops).decisions && k !in r.decisions
    ensures exists i | 0 <= i < |ops| :: AnsweredBy(ops[i], k, RunRoom(r, ops).decisions[k], r.request.hermes)
    decreases |ops|
  {
    var v, rest := After(r, ops[0]), ops[1..];
    OpKeeps(r, ops[0]);
    if k in v.decisions {
      NewDecisionIsAnswered(r, ops[0], k);
      DecisionsStay(v, rest, k);
    } else {
      RunAnswers(v, rest, k);
      var i :| 0 <= i < |rest| && AnsweredBy(rest[i], k, RunRoom(v, rest).decisions[k], v.request.hermes);
      assert ops[i + 1] == rest[i];
    }
  }

  /** The agent's answer to this upload is what has become of the segment. */
  predicate Explains(op: Op, s: Room, k: nat) {
    && op.DoAppend? && op.upload.sequence == k && k in s.decisions
    && (SaysForward(op.agent) || SaysSilent(op.agent))
    && (SaysForward(op.agent) <==> k in s.bindings && k in s.jobs && s.decisions[k].outcome == ForwardDefault)
    && (SaysSilent(op.agent) <==>
          && k !in s.bindings && k !in s.jobs
          && s.decisions[k].outcome == StoreSilent && s.decisions[k].result == StoredSilent)
  }

  lemma AnswerExplains(op: Op, s: Room, k: nat)
    requires RoomInv(s) && k in s.decisions && AnsweredBy(op, k, s.decisions[k], true) && s.request.hermes
    ensures Explains(op, s, k)
  {
    assert RowOk(s.decisions[k], true);
    assert k in s.bindings <==> s.decisions[k].outcome == ForwardDefault;
    assert k in s.jobs <==> k in s.bindings.Keys;
  }

  /**
   * In any run of a session with Hermes enabled a segment has a binding and a job exactly if the agent answered its
   * upload with FORWARD_DEFAULT, and neither exactly if it answered STORE_SILENT.
   */
  lemma AgentDecides(q: Request, key: Option<string>, expires: int, ops: seq<Op>, k: nat)
    requires q.hermes && k in RunRoom(NewRoom(q, key, expires), ops).segments
    ensures exists i | 0 <= i < |ops| :: Explains(ops[i], RunRoom(NewRoom(q, key, expires), ops), k)
  {
    var r := NewRoom(q, key, expires);
    NewRoomIsGood(q, key, expires);
    RunKeeps(r, ops);
    AgentDecidesFrom(r, ops, RunRoom(r, ops), k);
  }

  lemma AgentDecidesFrom(r: Room, ops: seq<Op>, s: Room, k: nat)
    requires RoomInv(r) && r.decisions == map[] && r.request.hermes
    requires s == RunRoom(r, ops) && RoomInv(s) && s.request == r.request && k in s.segments
    ensures exists i | 0 <= i < |ops| :: Explains(ops[i], s, k)
  {
    assert k in s.segments.Keys && k in s.decisions.Keys;
    RunAnswers(r, ops, k);
    var i :| 0 <= i < |ops| && AnsweredBy(ops[i], k, s.decisions[k], true);
    AnswerExplains(ops[i], s, k);
  }

  // ---- the session's own state ----------------------------------------------------------------

  /** The states from which the move leads to its target. */
  predicate Leads(m: Move, s: State, t: State) {
    match m
    case Activate => t == Active && (s == Created || s == Active)
    case Pause => t == Paused && (s == Active || s == Paused)
    case Resume => t == Active && (s == Paused || s == Active)
    case BeginStop => t == Stopping && (s == Created || s == Active || s == Paused || s == Stopping)
  }

  predicate PastTime(r: Room, now: int) {
    r.state != Expired && r.state != SessionFailed && r.expires <= now
  }

  predicate Owns(r: Room, owner: Owner) {
    r.request.owner == owner
  }

  lemma WhenMoved(r: Room, owner: Owner, m: Move, now: int, s: State)
    ensures Transition(r, owner, m, now) == Ok(r.(state := s)) <==>
            Owns(r, owner) && (if PastTime(r, now) then s == Expired else Leads(m, r.state, s))
    ensures Transition(r, owner, m, now).Ok? ==>
              Transition(r, owner, m, now) == Ok(r.(state := Transition(r, owner, m, now).value.state))
    ensures Transition(r, owner, m, now).Err? ==>
              Transition(r, owner, m, now).error == if Owns(r, owner) then Conflict else Unauthorized
  {
  }

  /** Stopping always takes the owner's session to an end: the one it has reached, or STOPPED. */
  lemma WhenStopped(r: Room, owner: Owner)
    ensures Stop(r, owner).Ok? <==> Owns(r, owner)
    ensures Stop(r, owner).Ok? ==>
              && Stop(r, owner).value == r.(state := Stop(r, owner).value.state)
              && Stop(r, owner).value.state ==
                 if r.state == Expired || r.state == SessionFailed then r.state else Stopped
  {
  }

  lemma WhenRead(r: Room, reader: Option<Owner>, now: int)
    ensures Read(r, reader, now).Ok? <==> (reader.Some? ==> Owns(r, reader.value))
    ensures Read(r, reader, now).Ok? ==>
              Read(r, reader, now).value == r.(state := if PastTime(r, now) then Expired else r.state)
    ensures RecoverRoom(r, now) == r.(state := if PastTime(r, now) && r.state != Stopped then Expired else r.state)
  {
  }

  // ---- replies, runs and results ----------------------------------------------------------------

  lemma WhenReplied(r: Room, k: nat, text: string, hash: string, authority: Option<bool>, now: int)
    ensures var v := RecordReply(r, k, text, hash, authority, now);
            && (v.Ok? <==>
                  && text != "" && authority != Some(false)
                  && r.request.responses && r.state == Active && now < r.expires
                  && (k in r.replies ==> r.replies[k].hash == hash))
            && (v.Ok? ==>
                  v.value == if k in r.replies then r
                             else r.(replies := r.replies[k := Reply(hash, text, r.request.tts, r.request.hermes)]))
  {
  }

  lemma WhenBound(r: Room, k: nat, run: string, authority: Option<bool>, taken: bool)
    ensures var v := BindRun(r, k, run, authority, taken);
            && (v.Ok? <==>
                  && run != "" && k in r.bindings && authority == Some(true)
                  && (r.bindings[k].run == Some(run) || (r.bindings[k].run == None && !taken)))
            && (v.Ok? ==>
                  && k in v.value.bindings && v.value == r.(bindings := r.bindings[k := v.value.bindings[k]])
                  && v.value.bindings[k] == r.bindings[k].(run := Some(run)))
  {
    if k in r.bindings && r.bindings[k].run == Some(run) {
      assert r.bindings[k := r.bindings[k]] == r.bindings;
    }
  }

  /** Giving up on a segment's job fails its decision exactly if that is still queued. */
  lemma WhenWorkerGivesUp(r: Room, k: nat)
    ensures WorkerTerminal(r, k) ==
            if k !in r.decisions || r.decisions[k].result != Queued then r
            else
              var failed := Decision(r.decisions[k].outcome, "worker_terminal", EffectFailed, None);
              r.(decisions := r.decisions[k := failed])
  {
  }

  predicate Speaks(o: RunResult) {
    o.terminal && Strip(o.content) != "" && o.messageId != "" && o.run != ""
  }

  /** The result is that of the segment's bound run, in a session that is still open for it. */
  predicate Belongs(r: Room, k: nat, o: RunResult, now: int) {
    && k in r.bindings && k in r.segments && k in r.decisions
    && r.bindings[k].run == Some(o.run) && o.provenance && r.segments[k].digest == r.bindings[k].digest
    && r.decisions[k].outcome == ForwardDefault
    && (r.state == Active || r.state == Paused || r.state == Stopping) && now < r.expires
  }

  predicate Receipted(d: Decision, k: nat, o: RunResult) {
    && d.receipt.Some? && d.receipt.value.contentHash == Some(o.hash)
    && d.receipt.value.messageId == Some(o.messageId) && d.receipt.value.submission == Some(k)
  }

  predicate ReplyAgrees(r: Room, k: nat, o: RunResult) {
    r.request.responses && k in r.replies ==> r.replies[k].hash == o.hash && r.replies[k].text == o.content
  }

  /** The delivered decision with its receipt, and the reply if the owner wanted replies and there is none yet. */
  predicate DeliveredIn(r: Room, v: Room, k: nat, o: RunResult)
    requires k in r.decisions
  {
    && k in v.decisions && Receipted(v.decisions[k], k, o)
    && v == r.(decisions := r.decisions[k := v.decisions[k]], replies := v.replies)
    && v.decisions[k] == r.decisions[k].(result := Delivered, reason := "hermes_response_available",
                                         receipt := v.decisions[k].receipt)
    && v.replies == if r.request.responses && k !in r.replies
                    then r.replies[k := Reply(o.hash, o.content, false, true)] else r.replies
  }

  /** A result is accepted once, under authority, for a queued segment; afterwards only as its own repetition. */
  predicate CommitOutcome(r: Room, k: nat, o: RunResult, authority: Option<bool>, now: int, v: Result<Room, Error>) {
    && (v.Ok? <==>
          && Speaks(o) && authority == Some(true) && Belongs(r, k, o, now)
          && (|| (r.decisions[k].result == Delivered && Receipted(r.decisions[k], k, o))
              || (r.decisions[k].result == Queued && ReplyAgrees(r, k, o))))
    && (v.Ok? && r.decisions[k].result == Delivered ==> v.value == r)
    && (v.Ok? && r.decisions[k].result == Queued ==> DeliveredIn(r, v.value, k, o))
  }

  lemma WhenCommitted(r: Room, k: nat, o: RunResult, authority: Option<bool>, now: int)
    ensures CommitOutcome(r, k, o, authority, now, CommitResult(r, k, o, authority, now))
  {
  }

  // ---- marks ------------------------------------------------------------------------------------

  /** The result a mark wishes for, in the new spelling or the old. */
  function Wish(m: Mark): Option<Delivery> {
    match m.word
    case None => m.result
    case Some(Names(_)) => m.result
    case Some(Legacy(d)) =>
      if m.result == None && (d == NoSpeech || d == Delivered || d == EffectFailed) then Some(d) else None
    case Some(Unknown) => None
  }

  predicate Proper(m: Mark, authority: Option<bool>) {
    Wish(m) != None && (Wish(m) == Some(Delivered) ==> m.receipt.Some?) && authority != Some(false)
  }

  predicate Late(r: Room, now: int) {
    r.state == Expired || PastTime(r, now)
  }

  /** In an expired session a wish to queue or deliver comes to a failure. */
  predicate ComesTo(r: Room, m: Mark, now: int, result: Delivery, reason: string, receipt: Option<Receipt>) {
    if Late(r, now) && (Wish(m) == Some(Queued) || Wish(m) == Some(Delivered))
    then result == EffectFailed && reason == "session_expired" && receipt == None
    else Wish(m) == Some(result) && reason == m.reason && receipt == m.receipt
  }

  predicate Settles(d: Delivery) {
    d == Delivered || d == NoSpeech || d == EffectFailed || d == StoredSilent
  }

  /** A settled decision only hears itself again; an open one takes the mark, and a session past its time expires. */
  predicate MarkOutcome(r: Room, k: nat, m: Mark, authority: Option<bool>, now: int, result: Delivery, reason: string,
                        receipt: Option<Receipt>, v: Result<Room, Error>)
  {
    && (v.Ok? <==>
          && Proper(m, authority) && k in r.decisions
          && (m.word.Some? && m.word.value.Names? ==> r.decisions[k].outcome == m.word.value.outcome)
          && (Settles(r.decisions[k].result) ==> result == r.decisions[k].result || result == Queued))
    && (v.Ok? ==>
          && v.value == r.(state := v.value.state, decisions := v.value.decisions)
          && v.value.state == (if PastTime(r, now) then Expired else r.state)
          && v.value.decisions ==
             if Settles(r.decisions[k].result) then r.decisions
             else r.decisions[k := r.decisions[k].(result := result, reason := reason, receipt := receipt)])
  }

  lemma ModernWish(m: Mark)
    ensures var n := Modern(m);
            && (Wish(m) != None <==> (n.word.Some? ==> n.word.value.Names?) && n.result.Some?)
            && (Wish(m) != None ==> n.result == Wish(m) && n.reason == m.reason && n.receipt == m.receipt)
            && (Wish(m) != None ==> (n.word.Some? <==> m.word.Some? && m.word.value.Names?))
            && (Wish(m) != None && n.word.Some? ==> n.word == m.word)
  {
  }

  lemma WhenMarked(r: Room, k: nat, m: Mark, authority: Option<bool>, now: int, result: Delivery, reason: string,
                   receipt: Option<Receipt>)
    requires Proper(m, authority) ==> ComesTo(r, m, now, result, reason, receipt)
    ensures MarkOutcome(r, k, m, authority, now, result, reason, receipt, MarkDecision(r, k, m, authority, now))
  {
    ModernWish(m);
    if Proper(m, authority) {
      OverruledComesTo(r, m, now, result, reason, receipt);
      SettledMark(Lapse(r, now), k, Overruled(r, Modern(m), now), result, reason, receipt);
    }
  }

  lemma OverruledComesTo(r: Room, m: Mark, now: int, result: Delivery, reason: string, receipt: Option<Receipt>)
    requires Wish(m) != None && ComesTo(r, m, now, result, reason, receipt)
    ensures Overruled(r, Modern(m), now) == Mark(Modern(m).word, Some(result), reason, receipt)
  {
    ModernWish(m);
  }

  lemma SettledMark(u: Room, k: nat, n: Mark, result: Delivery, reason: string, receipt: Option<Receipt>)
    requires n == Mark(n.word, Some(result), reason, receipt) && (n.word.Some? ==> n.word.value.Names?)
    ensures var v := SettleMark(u, k, n);
            && (v.Ok? <==>
                  && k in u.decisions && (n.word.Some? ==> u.decisions[k].outcome == n.word.value.outcome)
                  && (Settles(u.decisions[k].result) ==> result == u.decisions[k].result || result == Queued))
            && (v.Ok? ==>
                  var d := u.decisions[k];
                  v.value == if Settles(d.result) then u
                             else u.(decisions := u.decisions[k := d.(result := result, reason := reason,
                                                                      receipt := receipt)]))
  {
  }

  // ---- processing -------------------------------------------------------------------------------

  /** The segment waits for Hermes, in an active session, and is the one that was queued. */
  predicate Waiting(r: Room, k: nat, expected: Option<string>) {
    && k in r.decisions && k in r.segments
    && r.decisions[k].outcome == ForwardDefault && r.decisions[k].result == Queued && r.state == Active
    && (expected == None || expected == Some(r.segments[k].digest))
  }

  predicate Heard(s: Segment) {
    s.transcript.Some? && s.transcript.value != ""
  }

  /** In a sound session a segment is submitted exactly if it waits and there is speech in it and before it. */
  lemma WhenSubmitted(r: Room, k: nat, expected: Option<string>)
    requires RoomInv(r)
    ensures PlanSegment(r, k, expected).Submit? <==>
            Waiting(r, k, expected) && Heard(r.segments[k]) && Conversation(r.segments, k) != ""
  {
    assert k in r.decisions.Keys ==> k in r.segments.Keys;
    if Waiting(r, k, expected) {
      WaitingIsBound(r, k, expected);
    }
    PlanSubmits(r, k, expected);
  }

  lemma PlanSubmits(r: Room, k: nat, expected: Option<string>)
    requires k in r.decisions ==> k in r.segments
    requires Waiting(r, k, expected) ==> k in r.bindings && r.bindings[k].digest == r.segments[k].digest
    ensures PlanSegment(r, k, expected).Submit? <==>
            Waiting(r, k, expected) && Heard(r.segments[k]) && Conversation(r.segments, k) != ""
  {
  }

  lemma WaitingIsBound(r: Room, k: nat, expected: Option<string>)
    requires RoomInv(r) && Waiting(r, k, expected)
    ensures k in r.bindings && r.bindings[k].digest == r.segments[k].digest
  {
  }

  /** It is marked instead if it has no speech, or if its session is no longer active. */
  lemma WhenMarkedInstead(r: Room, k: nat, expected: Option<string>, result: Delivery)
    requires RoomInv(r)
    ensures (exists reason :: PlanSegment(r, k, expected) == MarkAs(result, reason)) <==>
            || (Waiting(r, k, expected) && result == NoSpeech
                && (!Heard(r.segments[k]) || Conversation(r.segments, k) == ""))
            || (k in r.decisions && r.decisions[k].outcome == ForwardDefault && r.decisions[k].result == Queued
                && r.state != Active && result == EffectFailed)
  {
    assert r.decisions.Keys == r.segments.Keys;
    var p := PlanSegment(r, k, expected);
    if p.MarkAs? {
      assert p == MarkAs(p.result, p.reason);
    }
  }
}
