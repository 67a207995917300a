/**
 * Eavesdrop sessions (recorder_next/features.py:2426-2964): segments appended in order, one routing
 * decision per segment, a request frozen when a segment is forwarded, and the result of the run.
 * A room is one session row with the segment, decision, binding, job and reply rows that carry its id.
 * Times are milliseconds. A raised error leaves the room as it was.
 */
module Eavesdrop {
  import opened Text
  import opened Wrappers

  datatype Error = Invalid | NotFound | Unauthorized | Conflict | LeaseConflict

  datatype State = Created | Active | Paused | Stopping | Stopped | Expired | SessionFailed

  datatype Outcome = ForwardDefault | StoreSilent

  datatype Delivery = Queued | StoredSilent | Delivered | NoSpeech | EffectFailed

  datatype Owner = Owner(user: string, phone: string)

  datatype Segment = Segment(clientId: string, digest: string, length: nat, transcript: Option<string>)

  /** The identifying fields of an effect receipt; `rest` is everything else in it. */
  datatype Receipt = Receipt(contentHash: Option<string>, messageId: Option<string>, submission: Option<nat>,
                             rest: string)

  datatype Decision = Decision(outcome: Outcome, reason: string, result: Delivery, receipt: Option<Receipt>)

  datatype Binding = Binding(digest: string, request: string, run: Option<string>)

  datatype Reply = Reply(hash: string, text: string, tts: bool, hermes: bool)

  /** What the owner asked for when the session was started; never updated. */
  datatype Request = Request(owner: Owner, watch: Option<string>, project: Option<string>,
                             responses: bool, tts: bool, hermes: bool)

  datatype Room = Room(
    request: Request,
    key: Option<string>,
    expires: int,
    state: State,
    accumulated: string,
    next: nat,
    segments: map<nat, Segment>,
    decisions: map<nat, Decision>,
    bindings: map<nat, Binding>,
    jobs: set<nat>,
    replies: map<nat, Reply>)

  function NewRoom(q: Request, key: Option<string>, expires: int): Room {
    Room(q, key, expires, Created, "", 0, map[], map[], map[], {}, map[])
  }

  // ---- text ---------------------------------------------------------------------------------

  /** The parts with a newline between neighbours. */
  function Join(parts: seq<string>): string {
    if parts == [] then "" else if |parts| == 1 then parts[0] else parts[0] + "\n" + Join(parts[1..])
  }

  function RawAt(segments: map<nat, Segment>, i: nat): seq<string> {
    if i in segments && segments[i].transcript.Some? && segments[i].transcript.value != ""
    then [segments[i].transcript.value] else []
  }

  function SpokenAt(segments: map<nat, Segment>, i: nat): seq<string> {
    if i in segments && segments[i].transcript.Some? && Strip(segments[i].transcript.value) != ""
    then [Strip(segments[i].transcript.value)] else []
  }

  /** The non-empty transcripts among the first n sequence numbers. */
  function Transcripts(segments: map<nat, Segment>, n: nat): seq<string> {
    if n == 0 then [] else Transcripts(segments, n - 1) + RawAt(segments, n - 1)
  }

  /** The stripped, non-blank transcripts among the first n sequence numbers. */
  function Spoken(segments: map<nat, Segment>, n: nat): seq<string> {
    if n == 0 then [] else Spoken(segments, n - 1) + SpokenAt(segments, n - 1)
  }

  /** What segment k asks Hermes: everything said up to and including it. */
  function Conversation(segments: map<nat, Segment>, k: nat): string {
    Join(Spoken(segments, k + 1))
  }

  // ---- expiry -------------------------------------------------------------------------------

  predicate Open(s: State) {
    s == Created || s == Active || s == Paused || s == Stopping || s == Stopped
  }

  predicate Lapsed(r: Room, now: int) {
    Open(r.state) && r.expires <= now
  }

  function Lapse(r: Room, now: int): Room {
    if Lapsed(r, now) then r.(state := Expired) else r
  }

  // ---- routing ------------------------------------------------------------------------------

  /** The routing agent is not trusted: it may fail, or answer anything. */
  datatype Answer = Fails | Malformed | Answers(outcome: string, reason: string, labelled: bool)

  datatype Selection = Selection(outcome: Outcome, reason: string)

  function Select(r: Room, agent: Answer): Result<Selection, Error> {
    if !r.request.hermes then Ok(Selection(StoreSilent, "hermes_disabled"))
    else if !agent.Answers? then Err(Invalid)
    else if agent.outcome != "FORWARD_DEFAULT" && agent.outcome != "STORE_SILENT" then Err(Invalid)
    else if !agent.labelled then Err(Invalid)
    else Ok(Selection(if agent.outcome == "FORWARD_DEFAULT" then ForwardDefault else StoreSilent, agent.reason))
  }

  function RouteSegment(r: Room, k: nat, agent: Answer): Result<Room, Error>
    requires k in r.segments
  {
    if k in r.decisions then
      Ok(r)
    else
      var s :- Select(r, agent);
      if s.outcome == StoreSilent then
        Ok(r.(decisions := r.decisions[k := Decision(StoreSilent, s.reason, StoredSilent, None)]))
      else
        Ok(r.(bindings := r.bindings[k := Binding(r.segments[k].digest, Conversation(r.segments, k), None)],
              jobs := r.jobs + {k},
              decisions := r.decisions[k := Decision(ForwardDefault, s.reason, Queued, None)]))
  }

  function Route(r: Room, owner: Owner, k: nat, agent: Answer): Result<Room, Error> {
    if r.request.owner != owner then Err(Unauthorized)
    else if k !in r.segments then Err(NotFound)
    else RouteSegment(r, k, agent)
  }

  // ---- appending ----------------------------------------------------------------------------

  datatype Upload = Upload(sequence: nat, segment: Segment)

  /** `hit` is the row the duplicate lookup returns; if both keys match different rows it may be either. */
  predicate Hits(r: Room, u: Upload, hit: Option<nat>) {
    match hit
    case Some(i) => i in r.segments && (i == u.sequence || r.segments[i].clientId == u.segment.clientId)
    case None => forall i | i in r.segments :: i != u.sequence && r.segments[i].clientId != u.segment.clientId
  }

  predicate SameUpload(stored: Segment, s: Segment) {
    stored.digest == s.digest && stored.length == s.length && (s.transcript.Some? ==> stored.transcript == s.transcript)
  }

  function Extend(accumulated: string, transcript: Option<string>): string {
    if transcript.None? || transcript.value == "" then accumulated
    else if accumulated == "" then transcript.value
    else accumulated + "\n" + transcript.value
  }

  function AppendRow(r: Room, u: Upload): Room {
    r.(segments := r.segments[u.sequence := u.segment],
       accumulated := Extend(r.accumulated, u.segment.transcript),
       next := u.sequence + 1)
  }

  function Append(r: Room, owner: Owner, u: Upload, hit: Option<nat>, agent: Answer, now: int): Result<Room, Error> {
    if u.segment.length == 0 then Err(Invalid)
    else if r.request.owner != owner then Err(Unauthorized)
    else if r.state != Active then Err(Conflict)
    else if r.expires <= now then Err(Conflict)
    else if hit.Some? then
      if hit.value in r.segments && SameUpload(r.segments[hit.value], u.segment) then Ok(r) else Err(Conflict)
    else if u.sequence != r.next then Err(Conflict)
    else RouteSegment(AppendRow(r, u), u.sequence, agent)
  }

  // ---- the run and its result ---------------------------------------------------------------

  /** `authority` is the answer of the worker effect check; a refused check raises. */
  function BindRun(r: Room, k: nat, run: string, authority: Option<bool>, taken: bool): Result<Room, Error> {
    if run == "" then Err(Invalid)
    else if k !in r.bindings then Err(NotFound)
    else if authority != Some(true) then Err(LeaseConflict)
    else if r.bindings[k].run.Some? then
      if r.bindings[k].run.value == run then Ok(r) else Err(Conflict)
    else if taken then Err(Conflict)
    else Ok(r.(bindings := r.bindings[k := r.bindings[k].(run := Some(run))]))
  }

  /** `provenance` says that no other field of the result contradicts the binding. */
  datatype RunResult = RunResult(terminal: bool, content: string, hash: string, messageId: string, run: string,
                                 provenance: bool)

  predicate SameResult(previous: Option<Receipt>, k: nat, o: RunResult) {
    && previous.Some?
    && previous.value.contentHash == Some(o.hash)
    && previous.value.messageId == Some(o.messageId)
    && previous.value.submission == Some(k)
  }

  function DeliveredRow(d: Decision, k: nat, o: RunResult): Decision {
    d.(result := Delivered, reason := "hermes_response_available",
       receipt := Some(Receipt(Some(o.hash), Some(o.messageId), Some(k), "hermes-run")))
  }

  function CommitResult(r: Room, k: nat, o: RunResult, authority: Option<bool>, now: int): Result<Room, Error> {
    if !o.terminal || Strip(o.content) == "" || o.messageId == "" || o.run == "" then Err(Invalid)
    else if authority != Some(true) then Err(LeaseConflict)
    else if k !in r.bindings then Err(Conflict)
    else if r.bindings[k].run != Some(o.run) || !o.provenance then Err(Conflict)
    else if k !in r.segments || k !in r.decisions then Err(NotFound)
    else if r.segments[k].digest != r.bindings[k].digest then Err(Conflict)
    else if !(r.state == Active || r.state == Paused || r.state == Stopping) || r.expires <= now then Err(Conflict)
    else
      var d := r.decisions[k];
      if d.outcome != ForwardDefault then Err(Conflict)
      else if d.result == Delivered then
        if SameResult(d.receipt, k, o) then Ok(r) else Err(Conflict)
      else if d.result != Queued then Err(Conflict)
      else if r.request.responses && k in r.replies
              && (r.replies[k].hash != o.hash || r.replies[k].text != o.content) then
        Err(Conflict)
      else
        var replies := if r.request.responses && k !in r.replies
                       then r.replies[k := Reply(o.hash, o.content, false, true)]
                       else r.replies;
        Ok(r.(replies := replies, decisions := r.decisions[k := DeliveredRow(d, k, o)]))
  }

  // ---- marking a decision -------------------------------------------------------------------

  /** The `decision` argument: an outcome, a result state in the old spelling, or anything else. */
  datatype Word = Names(outcome: Outcome) | Legacy(result: Delivery) | Unknown

  datatype Mark = Mark(word: Option<Word>, result: Option<Delivery>, reason: string, receipt: Option<Receipt>)

  function Modern(m: Mark): Mark {
    if m.word.Some? && m.word.value.Legacy? && m.word.value.result in {NoSpeech, Delivered, EffectFailed}
       && m.result.None?
    then m.(word := None, result := Some(m.word.value.result))
    else m
  }

  predicate Final(d: Delivery) {
    d == Delivered || d == NoSpeech || d == EffectFailed || d == StoredSilent
  }

  /** A wish to queue or deliver in an expired session becomes a failure. */
  function Overruled(r: Room, m: Mark, now: int): Mark {
    if (Lapsed(r, now) || r.state == Expired) && m.result in {Some(Queued), Some(Delivered)}
    then m.(result := Some(EffectFailed), reason := "session_expired", receipt := None)
    else m
  }

  function SettleMark(v: Room, k: nat, n: Mark): Result<Room, Error>
    requires n.result.Some? && (n.word.Some? ==> n.word.value.Names?)
  {
    if k !in v.decisions then Err(NotFound)
    else
      var d := v.decisions[k];
      if n.word.Some? && d.outcome != n.word.value.outcome then Err(Conflict)
      else if Final(d.result) then
        if d.result != n.result.value && n.result.value != Queued then Err(Conflict) else Ok(v)
      else
        Ok(v.(decisions := v.decisions[k := d.(reason := n.reason, result := n.result.value, receipt := n.receipt)]))
  }

  function MarkDecision(r: Room, k: nat, asked: Mark, authority: Option<bool>, now: int): Result<Room, Error> {
    var m := Modern(asked);
    if m.word.Some? && !m.word.value.Names? then Err(Invalid)
    else if m.result.None? then Err(Invalid)
    else if m.result == Some(Delivered) && m.receipt.None? then Err(Invalid)
    else if authority == Some(false) then Err(LeaseConflict)
    else SettleMark(Lapse(r, now), k, Overruled(r, m, now))
  }

  /** The worker ledger gave up on the job of this segment (recorder_next/features.py:1168-1173). */
  function WorkerTerminal(r: Room, k: nat): Room {
    if k in r.decisions && r.decisions[k].result == Queued
    then
      var d := r.decisions[k].(reason := "worker_terminal", result := EffectFailed, receipt := None);
      r.(decisions := r.decisions[k := d])
    else r
  }

  function RecordReply(r: Room, k: nat, text: string, hash: string, authority: Option<bool>,
                       now: int): Result<Room, Error>
  {
    if text == "" then Err(Invalid)
    else if authority == Some(false) then Err(LeaseConflict)
    else if !r.request.responses then Err(Conflict)
    else if Lapsed(r, now) then Err(Conflict)
    else if r.state != Active then Err(Conflict)
    else if k in r.replies then
      if r.replies[k].hash == hash then Ok(r) else Err(Conflict)
    else Ok(r.(replies := r.replies[k := Reply(hash, text, r.request.tts, r.request.hermes)]))
  }

  // ---- the session's own state --------------------------------------------------------------

  datatype Move = Activate | Pause | Resume | BeginStop

  predicate Allowed(m: Move, s: State) {
    match m
    case Activate => s == Created
    case Pause => s == Active
    case Resume => s == Paused
    case BeginStop => s == Created || s == Active || s == Paused
  }

  function Target(m: Move): State {
    match m
    case Activate => Active
    case Pause => Paused
    case Resume => Active
    case BeginStop => Stopping
  }

  function Transition(r: Room, owner: Owner, m: Move, now: int): Result<Room, Error> {
    if r.request.owner != owner then Err(Unauthorized)
    else if Lapsed(r, now) then Ok(Lapse(r, now))
    else if !Allowed(m, r.state) && r.state != Target(m) then Err(Conflict)
    else Ok(r.(state := Target(m)))
  }

  function Stop(r: Room, owner: Owner): Result<Room, Error> {
    if r.request.owner != owner then Err(Unauthorized)
    else if r.state == Stopped || r.state == Expired || r.state == SessionFailed then Ok(r)
    else Ok(r.(state := Stopped))
  }

  function Read(r: Room, reader: Option<Owner>, now: int): Result<Room, Error> {
    if reader.Some? && reader.value != r.request.owner then Err(Unauthorized)
    else Ok(Lapse(r, now))
  }

  /** Startup recovery leaves STOPPED sessions alone. */
  function RecoverRoom(r: Room, now: int): Room {
    if Lapsed(r, now) && r.state != Stopped then r.(state := Expired) else r
  }

  // ---- processing a queued segment (recorder_next/service.py:526-574) ----------------------------------------

  /** What the worker does with a segment, decided from the session as it was read. */
  datatype Plan = Refuse | Report(result: Delivery) | MarkAs(result: Delivery, reason: string) | Submit(request: string)

  function PlanSegment(r: Room, k: nat, expected: Option<string>): Plan {
    if k !in r.decisions then Refuse
    else if r.decisions[k].outcome != ForwardDefault || r.decisions[k].result != Queued then
      Report(r.decisions[k].result)
    else if r.state != Active then
      MarkAs(EffectFailed, if r.state == Expired then "session_expired" else "session_inactive")
    else if k !in r.segments then Refuse
    else if expected.Some? && expected.value != r.segments[k].digest then Refuse
    else if r.segments[k].transcript.None? || r.segments[k].transcript.value == "" then
      MarkAs(NoSpeech, "segment_has_no_transcript")
    else if Conversation(r.segments, k) == "" then MarkAs(NoSpeech, "conversation_has_no_transcript")
    else if k !in r.bindings || r.bindings[k].digest != r.segments[k].digest then Refuse
    else Submit(r.bindings[k].request)
  }

  // ---- steps --------------------------------------------------------------------------------

  datatype Op =
    | DoAppend(owner: Owner, upload: Upload, hit: Option<nat>, agent: Answer, now: int)
    | DoRoute(owner: Owner, sequence: nat, agent: Answer)
    | DoBind(sequence: nat, run: string, authority: Option<bool>, taken: bool)
    | DoCommit(sequence: nat, outcome: RunResult, authority: Option<bool>, now: int)
    | DoMark(sequence: nat, mark: Mark, authority: Option<bool>, now: int)
    | DoReply(sequence: nat, text: string, hash: string, authority: Option<bool>, now: int)
    | DoMove(owner: Owner, move: Move, now: int)
    | DoStop(owner: Owner)
    | DoRead(reader: Option<Owner>, now: int)
    | DoRecover(now: int)
    | WorkerGivesUp(sequence: nat)

  function Perform(r: Room, op: Op): Result<Room, Error> {
    match op
    case DoAppend(owner, u, hit, agent, now) =>
      if Hits(r, u, hit) then Append(r, owner, u, hit, agent, now) else Err(Conflict)
    case DoRoute(owner, k, agent) => Route(r, owner, k, agent)
    case DoBind(k, run, authority, taken) => BindRun(r, k, run, authority, taken)
    case DoCommit(k, o, authority, now) => CommitResult(r, k, o, authority, now)
    case DoMark(k, m, authority, now) => MarkDecision(r, k, m, authority, now)
    case DoReply(k, text, hash, authority, now) => RecordReply(r, k, text, hash, authority, now)
    case DoMove(owner, m, now) => Transition(r, owner, m, now)
    case DoStop(owner) => Stop(r, owner)
    case DoRead(reader, now) => Read(r, reader, now)
    case DoRecover(now) => Ok(RecoverRoom(r, now))
    case WorkerGivesUp(k) => Ok(WorkerTerminal(r, k))
  }

  function After(r: Room, op: Op): Room {
    var v := Perform(r, op);
    if v.Ok? then v.value else r
  }

  function RunRoom(r: Room, ops: seq<Op>): Room
    decreases |ops|
  {
    if ops == [] then r else RunRoom(After(r, ops[0]), ops[1..])
  }
}
