/** What every eavesdrop operation keeps, and what follows for whole runs. */
module EavesdropSafety {
  import opened Text
  import opened Wrappers
  import opened Eavesdrop

  // ---- the invariant ------------------------------------------------------------------------

  ghost predicate Ordered(segments: map<nat, Segment>, next: nat) {
    && (forall i: nat :: i in segments <==> i < next)
    && (forall i, j | i in segments && j in segments :: segments[i].clientId == segments[j].clientId ==> i == j)
  }

  ghost predicate Accumulates(accumulated: string, segments: map<nat, Segment>, next: nat) {
    accumulated == Join(Transcripts(segments, next))
  }

  /** Forwarding is what makes a binding and a job, and nothing else does. */
  ghost predicate Bound(decisions: map<nat, Decision>, bindings: map<nat, Binding>, jobs: set<nat>) {
    && (forall k | k in decisions :: k in bindings <==> decisions[k].outcome == ForwardDefault)
    && bindings.Keys <= decisions.Keys
    && jobs == bindings.Keys
  }

  ghost predicate Frozen(bindings: map<nat, Binding>, segments: map<nat, Segment>) {
    forall k | k in bindings && k in segments ::
      bindings[k].request == Conversation(segments, k) && bindings[k].digest == segments[k].digest
  }

  predicate RowOk(d: Decision, hermes: bool) {
    && (d.outcome == StoreSilent ==> d.result == StoredSilent)
    && (d.result == Delivered ==> d.receipt.Some?)
    && (!hermes ==> d.outcome == StoreSilent)
  }

  ghost predicate RowsOk(decisions: map<nat, Decision>, hermes: bool) {
    forall k | k in decisions :: RowOk(decisions[k], hermes)
  }

  /** Exactly one decision per segment, and every part of the session in step with it. */
  ghost predicate RoomInv(r: Room) {
    && Sound(r)
    && r.decisions.Keys == r.segments.Keys
  }

  ghost predicate Sound(r: Room) {
    && Ordered(r.segments, r.next)
    && Accumulates(r.accumulated, r.segments, r.next)
    && Bound(r.decisions, r.bindings, r.jobs)
    && Frozen(r.bindings, r.segments)
    && RowsOk(r.decisions, r.request.hermes)
    && r.state != SessionFailed
  }

  // ---- what may change ------------------------------------------------------------------------

  ghost predicate Persists<T(!new)>(s: map<nat, T>, t: map<nat, T>) {
    forall i | i in s :: i in t && t[i] == s[i]
  }

  predicate RowGrows(d: Decision, e: Decision) {
    d.outcome == e.outcome && (Final(d.result) ==> d == e)
  }

  ghost predicate DecisionsGrow(s: map<nat, Decision>, t: map<nat, Decision>) {
    forall k | k in s :: k in t && RowGrows(s[k], t[k])
  }

  predicate BindingGrows(b: Binding, c: Binding) {
    b.digest == c.digest && b.request == c.request && (b.run.Some? ==> b == c)
  }

  ghost predicate BindingsGrow(s: map<nat, Binding>, t: map<nat, Binding>) {
    forall k | k in s :: k in t && BindingGrows(s[k], t[k])
  }

  predicate StateGrows(s: State, t: State) {
    (s == Expired ==> t == Expired) && (s == Stopped ==> t == Stopped || t == Expired)
  }

  /** From one state of a room to any later one. */
  ghost predicate Grows(r: Room, s: Room) {
    && r.request == s.request && r.key == s.key && r.expires == s.expires
    && Persists(r.segments, s.segments)
    && DecisionsGrow(r.decisions, s.decisions)
    && BindingsGrow(r.bindings, s.bindings)
    && Persists(r.replies, s.replies)
    && StateGrows(r.state, s.state)
  }

  lemma GrowsReflexive(r: Room)
    ensures Grows(r, r)
  {
  }

  lemma GrowsTransitive(r: Room, s: Room, t: Room)
    requires Grows(r, s) && Grows(s, t)
    ensures Grows(r, t)
  {
  }

  // ---- text ---------------------------------------------------------------------------------

  lemma {:induction false} JoinSnoc(parts: seq<string>, x: string)
    ensures Join(parts + [x]) == if parts == [] then x else Join(parts) + "\n" + x
  {
    if parts == [] {
      assert parts + [x] == [x];
    } else {
      assert (parts + [x])[1..] == parts[1..] + [x];
      JoinSnoc(parts[1..], x);
      if |parts| > 1 {
        var a, b, c := parts[0] + "\n", Join(parts[1..]), "\n" + x;
        assert a + (b + "\n" + x) == a + b + "\n" + x;
      }
    }
  }

  lemma {:induction false} JoinEmpty(parts: seq<string>)
    requires forall p | p in parts :: p != ""
    ensures Join(parts) == "" <==> parts == []
  {
    if parts != [] {
      assert parts[0] in parts;
    }
  }

  lemma {:induction false} TextFrame(s: map<nat, Segment>, t: map<nat, Segment>, n: nat)
    requires forall i: nat | i < n :: (i in s <==> i in t) && (i in s ==> s[i] == t[i])
    ensures Transcripts(s, n) == Transcripts(t, n) && Spoken(s, n) == Spoken(t, n)
  {
    if n > 0 {
      TextFrame(s, t, n - 1);
      assert n - 1 < n;
    }
  }

  lemma {:induction false} TranscriptsNonEmpty(s: map<nat, Segment>, n: nat)
    ensures forall p | p in Transcripts(s, n) :: p != ""
    ensures forall p | p in Spoken(s, n) :: p != ""
  {
    if n > 0 {
      TranscriptsNonEmpty(s, n - 1);
    }
  }

  lemma ExtendIsJoin(s: map<nat, Segment>, n: nat, t: Segment)
    requires n !in s
    ensures Join(Transcripts(s[n := t], n + 1)) == Extend(Join(Transcripts(s, n)), t.transcript)
  {
    var u := s[n := t];
    TextFrame(s, u, n);
    TranscriptsNonEmpty(s, n);
    JoinEmpty(Transcripts(s, n));
    if t.transcript.Some? && t.transcript.value != "" {
      JoinSnoc(Transcripts(s, n), t.transcript.value);
    } else {
      assert Transcripts(s, n) + [] == Transcripts(s, n);
    }
  }

  // ---- appending and routing ------------------------------------------------------------------

  /** A room whose newest segment has no decision yet. */
  ghost predicate Undecided(r: Room, k: nat) {
    Sound(r) && k in r.segments && k !in r.decisions && r.decisions.Keys + {k} == r.segments.Keys
  }

  lemma ConversationFrame(segments: map<nat, Segment>, n: nat, t: Segment, k: nat)
    requires k < n
    ensures Conversation(segments[n := t], k) == Conversation(segments, k)
  {
    TextFrame(segments, segments[n := t], k + 1);
  }

  lemma FrozenStays(bindings: map<nat, Binding>, segments: map<nat, Segment>, n: nat, t: Segment)
    requires Frozen(bindings, segments)
    requires forall k | k in bindings :: k < n && k in segments
    ensures Frozen(bindings, segments[n := t])
  {
    var s := segments[n := t];
    forall k | k in bindings && k in s
      ensures bindings[k].request == Conversation(s, k) && bindings[k].digest == s[k].digest
    {
      ConversationFrame(segments, n, t, k);
    }
  }

  lemma OrderedStays(r: Room, u: Upload)
    requires Ordered(r.segments, r.next) && u.sequence == r.next && Hits(r, u, None)
    ensures Ordered(r.segments[u.sequence := u.segment], r.next + 1)
    ensures Persists(r.segments, r.segments[u.sequence := u.segment])
    ensures r.segments[u.sequence := u.segment].Keys == r.segments.Keys + {r.next}
  {
  }

  lemma AppendRowKeeps(r: Room, u: Upload)
    requires RoomInv(r) && u.sequence == r.next && Hits(r, u, None)
    ensures Undecided(AppendRow(r, u), u.sequence) && Grows(r, AppendRow(r, u))
  {
    OrderedStays(r, u);
    AppendRowSound(r, u);
  }

  lemma AppendRowSound(r: Room, u: Upload)
    requires RoomInv(r) && u.sequence == r.next && Ordered(r.segments[u.sequence := u.segment], r.next + 1)
    ensures Sound(AppendRow(r, u))
  {
    ExtendIsJoin(r.segments, r.next, u.segment);
    assert forall k | k in r.bindings :: k in r.decisions.Keys && k in r.segments.Keys;
    FrozenStays(r.bindings, r.segments, r.next, u.segment);
  }

  /** New decision and binding rows that hang together with the segments. */
  ghost predicate RowsFit(r: Room, decisions: map<nat, Decision>, bindings: map<nat, Binding>, jobs: set<nat>) {
    && decisions.Keys == r.segments.Keys
    && Bound(decisions, bindings, jobs) && Frozen(bindings, r.segments) && RowsOk(decisions, r.request.hermes)
    && DecisionsGrow(r.decisions, decisions) && BindingsGrow(r.bindings, bindings)
  }

  lemma RowsMoved(r: Room, decisions: map<nat, Decision>, bindings: map<nat, Binding>, jobs: set<nat>)
    requires Sound(r) && RowsFit(r, decisions, bindings, jobs)
    ensures var v := r.(decisions := decisions, bindings := bindings, jobs := jobs); RoomInv(v) && Grows(r, v)
  {
  }

  lemma BoundSilent(decisions: map<nat, Decision>, bindings: map<nat, Binding>, jobs: set<nat>, k: nat, d: Decision)
    requires Bound(decisions, bindings, jobs) && k !in decisions && d.outcome == StoreSilent
    ensures Bound(decisions[k := d], bindings, jobs)
  {
    assert decisions[k := d].Keys == decisions.Keys + {k};
  }

  lemma RowAdded(decisions: map<nat, Decision>, hermes: bool, k: nat, d: Decision)
    requires RowsOk(decisions, hermes) && RowOk(d, hermes)
    requires k in decisions ==> RowGrows(decisions[k], d)
    ensures RowsOk(decisions[k := d], hermes) && DecisionsGrow(decisions, decisions[k := d])
    ensures decisions[k := d].Keys == decisions.Keys + {k}
  {
  }

  lemma DecideSilent(r: Room, k: nat, d: Decision)
    requires Undecided(r, k) && d.outcome == StoreSilent && d.result == StoredSilent
    ensures var v := r.(decisions := r.decisions[k := d]); RoomInv(v) && Grows(r, v)
  {
    BoundSilent(r.decisions, r.bindings, r.jobs, k, d);
    RowAdded(r.decisions, r.request.hermes, k, d);
    RowsMoved(r, r.decisions[k := d], r.bindings, r.jobs);
  }

  lemma BoundForward(decisions: map<nat, Decision>, bindings: map<nat, Binding>, jobs: set<nat>, k: nat, d: Decision,
                     b: Binding)
    requires Bound(decisions, bindings, jobs) && k !in decisions && d.outcome == ForwardDefault
    ensures Bound(decisions[k := d], bindings[k := b], jobs + {k})
    ensures BindingsGrow(bindings, bindings[k := b])
  {
    assert decisions[k := d].Keys == decisions.Keys + {k};
    assert bindings[k := b].Keys == bindings.Keys + {k};
  }

  lemma FrozenAdds(bindings: map<nat, Binding>, segments: map<nat, Segment>, k: nat, b: Binding)
    requires Frozen(bindings, segments)
    requires k in segments ==> b.request == Conversation(segments, k) && b.digest == segments[k].digest
    ensures Frozen(bindings[k := b], segments)
  {
  }

  lemma DecideForward(r: Room, k: nat, d: Decision, b: Binding)
    requires Undecided(r, k) && r.request.hermes && d.outcome == ForwardDefault && d.result == Queued
    requires b.request == Conversation(r.segments, k) && b.digest == r.segments[k].digest
    ensures var v := r.(bindings := r.bindings[k := b], jobs := r.jobs + {k}, decisions := r.decisions[k := d]);
            RoomInv(v) && Grows(r, v)
  {
    BoundForward(r.decisions, r.bindings, r.jobs, k, d, b);
    RowAdded(r.decisions, r.request.hermes, k, d);
    FrozenAdds(r.bindings, r.segments, k, b);
    RowsMoved(r, r.decisions[k := d], r.bindings[k := b], r.jobs + {k});
  }

  lemma RouteKeeps(r: Room, k: nat, agent: Answer)
    requires k in r.segments && (RoomInv(r) || Undecided(r, k)) && RouteSegment(r, k, agent).Ok?
    ensures var v := RouteSegment(r, k, agent).value; RoomInv(v) && Grows(r, v)
  {
    if k !in r.decisions {
      var s := Select(r, agent).value;
      if s.outcome == StoreSilent {
        DecideSilent(r, k, Decision(StoreSilent, s.reason, StoredSilent, None));
      } else {
        DecideForward(r, k, Decision(ForwardDefault, s.reason, Queued, None),
                      Binding(r.segments[k].digest, Conversation(r.segments, k), None));
      }
    }
  }

  lemma AppendKeeps(r: Room, owner: Owner, u: Upload, hit: Option<nat>, agent: Answer, now: int)
    requires RoomInv(r) && Hits(r, u, hit) && Append(r, owner, u, hit, agent, now).Ok?
    ensures var v := Append(r, owner, u, hit, agent, now).value; RoomInv(v) && Grows(r, v)
  {
    if hit.None? {
      var m := AppendRow(r, u);
      AppendRowKeeps(r, u);
      RouteKeeps(m, u.sequence, agent);
      GrowsTransitive(r, m, RouteSegment(m, u.sequence, agent).value);
    }
  }

  // ---- the other operations -------------------------------------------------------------------

  lemma BoundStays(decisions: map<nat, Decision>, bindings: map<nat, Binding>, jobs: set<nat>, k: nat, d: Decision)
    requires Bound(decisions, bindings, jobs) && k in decisions && d.outcome == decisions[k].outcome
    ensures Bound(decisions[k := d], bindings, jobs)
  {
    assert decisions[k := d].Keys == decisions.Keys;
  }

  lemma DecisionMoves(r: Room, k: nat, d: Decision)
    requires RoomInv(r) && k in r.decisions && RowGrows(r.decisions[k], d) && RowOk(d, r.request.hermes)
    ensures var v := r.(decisions := r.decisions[k := d]); RoomInv(v) && Grows(r, v)
  {
    BoundStays(r.decisions, r.bindings, r.jobs, k, d);
    RowAdded(r.decisions, r.request.hermes, k, d);
    assert r.decisions[k := d].Keys == r.segments.Keys;
    RowsMoved(r, r.decisions[k := d], r.bindings, r.jobs);
  }

  lemma BoundMoves(decisions: map<nat, Decision>, bindings: map<nat, Binding>, jobs: set<nat>, k: nat, b: Binding)
    requires Bound(decisions, bindings, jobs) && k in bindings
    ensures Bound(decisions, bindings[k := b], jobs)
  {
    assert bindings[k := b].Keys == bindings.Keys;
  }

  lemma BindingMoves(r: Room, k: nat, b: Binding)
    requires RoomInv(r) && k in r.bindings && BindingGrows(r.bindings[k], b)
    ensures var v := r.(bindings := r.bindings[k := b]); RoomInv(v) && Grows(r, v)
  {
    BoundMoves(r.decisions, r.bindings, r.jobs, k, b);
    FrozenAdds(r.bindings, r.segments, k, b);
    RowsMoved(r, r.decisions, r.bindings[k := b], r.jobs);
  }

  lemma ReplyMoves(r: Room, k: nat, reply: Reply)
    requires RoomInv(r) && k !in r.replies
    ensures var v := r.(replies := r.replies[k := reply]); RoomInv(v) && Grows(r, v)
  {
  }

  predicate StateMoves(s: State, t: State) {
    s == t || (t == Expired && Open(s)) || (s != Expired && s != Stopped && t != SessionFailed)
  }

  lemma StateMoved(r: Room, s: State)
    requires RoomInv(r) && StateMoves(r.state, s)
    ensures RoomInv(r.(state := s)) && Grows(r, r.(state := s))
  {
  }

  /** What a commit may do to a room. */
  ghost predicate Commits(r: Room, k: nat, o: RunResult, v: Room) {
    || v == r
    || (&& k in r.decisions && r.decisions[k].outcome == ForwardDefault && r.decisions[k].result == Queued
        && v == r.(decisions := r.decisions[k := DeliveredRow(r.decisions[k], k, o)], replies := v.replies)
        && Persists(r.replies, v.replies))
  }

  lemma CommitsRow(r: Room, k: nat, o: RunResult, authority: Option<bool>, now: int, v: Room)
    requires CommitResult(r, k, o, authority, now) == Ok(v)
    ensures Commits(r, k, o, v)
  {
  }

  lemma CommitKeeps(r: Room, k: nat, o: RunResult, authority: Option<bool>, now: int)
    requires RoomInv(r) && CommitResult(r, k, o, authority, now).Ok?
    ensures var v := CommitResult(r, k, o, authority, now).value; RoomInv(v) && Grows(r, v)
  {
    var v := CommitResult(r, k, o, authority, now).value;
    CommitsRow(r, k, o, authority, now, v);
    CommittedKeeps(r, k, o, v);
  }

  lemma CommittedKeeps(r: Room, k: nat, o: RunResult, v: Room)
    requires RoomInv(r) && Commits(r, k, o, v)
    ensures RoomInv(v) && Grows(r, v)
  {
    if v == r {
      GrowsReflexive(r);
    } else {
      HermesIsOn(r, k);
      WithReply(r, k, DeliveredRow(r.decisions[k], k, o), v);
    }
  }

  lemma HermesIsOn(r: Room, k: nat)
    requires RoomInv(r) && k in r.decisions && r.decisions[k].outcome == ForwardDefault
    ensures r.request.hermes
  {
    assert RowOk(r.decisions[k], r.request.hermes);
  }

  lemma WithReply(r: Room, k: nat, d: Decision, v: Room)
    requires RoomInv(r) && k in r.decisions && RowGrows(r.decisions[k], d) && RowOk(d, r.request.hermes)
    requires Persists(r.replies, v.replies) && v == r.(decisions := r.decisions[k := d], replies := v.replies)
    ensures RoomInv(v) && Grows(r, v)
  {
    DecisionMoves(r, k, d);
  }

  lemma LapseKeeps(r: Room, now: int)
    requires RoomInv(r)
    ensures RoomInv(Lapse(r, now)) && Grows(r, Lapse(r, now))
  {
    StateMoved(r, Lapse(r, now).state);
  }

  lemma MarkKeeps(r: Room, k: nat, m: Mark, authority: Option<bool>, now: int)
    requires RoomInv(r) && MarkDecision(r, k, m, authority, now).Ok?
    ensures var v := MarkDecision(r, k, m, authority, now).value; RoomInv(v) && Grows(r, v)
  {
    var u := Lapse(r, now);
    LapseKeeps(r, now);
    if !Final(r.decisions[k].result) {
      var e := MarkDecision(r, k, m, authority, now).value.decisions[k];
      DecisionMoves(u, k, e);
      GrowsTransitive(r, u, u.(decisions := u.decisions[k := e]));
    }
  }

  lemma BindKeeps(r: Room, k: nat, run: string, authority: Option<bool>, taken: bool)
    requires RoomInv(r) && BindRun(r, k, run, authority, taken).Ok?
    ensures var v := BindRun(r, k, run, authority, taken).value; RoomInv(v) && Grows(r, v)
  {
    if r.bindings[k].run.None? {
      BindingMoves(r, k, r.bindings[k].(run := Some(run)));
    }
  }

  lemma ReplyKeeps(r: Room, k: nat, text: string, hash: string, authority: Option<bool>, now: int)
    requires RoomInv(r) && RecordReply(r, k, text, hash, authority, now).Ok?
    ensures var v := RecordReply(r, k, text, hash, authority, now).value; RoomInv(v) && Grows(r, v)
  {
    if k !in r.replies {
      ReplyMoves(r, k, Reply(hash, text, r.request.tts, r.request.hermes));
    }
  }

  lemma TerminalKeeps(r: Room, k: nat)
    requires RoomInv(r)
    ensures RoomInv(WorkerTerminal(r, k)) && Grows(r, WorkerTerminal(r, k))
  {
    if k in r.decisions && r.decisions[k].result == Queued {
      DecisionMoves(r, k, r.decisions[k].(reason := "worker_terminal", result := EffectFailed, receipt := None));
    }
  }

  predicate MovesState(op: Op) {
    op.DoMove? || op.DoStop? || op.DoRead? || op.DoRecover?
  }

  lemma StateOps(r: Room, op: Op)
    requires MovesState(op) && r.state != SessionFailed
    ensures After(r, op) == r.(state := After(r, op).state) && StateMoves(r.state, After(r, op).state)
  {
  }

  lemma OpKeeps(r: Room, op: Op)
    requires RoomInv(r)
    ensures RoomInv(After(r, op)) && Grows(r, After(r, op))
  {
    if MovesState(op) {
      StateOps(r, op);
      StateMoved(r, After(r, op).state);
    } else {
      RowOps(r, op);
    }
  }

  lemma RowOps(r: Room, op: Op)
    requires RoomInv(r) && !MovesState(op)
    ensures RoomInv(After(r, op)) && Grows(r, After(r, op))
  {
    if Perform(r, op).Ok? {
      match op
      case DoAppend(owner, u, hit, agent, now) => AppendKeeps(r, owner, u, hit, agent, now);
      case DoRoute(owner, k, agent) => RouteKeeps(r, k, agent);
      case DoBind(k, run, authority, taken) => BindKeeps(r, k, run, authority, taken);
      case DoCommit(k, o, authority, now) => CommitKeeps(r, k, o, authority, now);
      case DoMark(k, m, authority, now) => MarkKeeps(r, k, m, authority, now);
      case DoReply(k, text, hash, authority, now) => ReplyKeeps(r, k, text, hash, authority, now);
      case WorkerGivesUp(k) => TerminalKeeps(r, k);
    }
  }

  lemma NewRoomIsGood(q: Request, key: Option<string>, expires: int)
    ensures RoomInv(NewRoom(q, key, expires))
  {
  }

  lemma {:induction false} RunKeeps(r: Room, ops: seq<Op>)
    requires RoomInv(r)
    ensures RoomInv(RunRoom(r, ops)) && Grows(r, RunRoom(r, ops))
    decreases |ops|
  {
    if ops != [] {
      OpKeeps(r, ops[0]);
      RunKeeps(After(r, ops[0]), ops[1..]);
      GrowsTransitive(r, After(r, ops[0]), RunRoom(r, ops));
    }
  }

  // ---- theorems about every run ---------------------------------------------------------------

  lemma {:induction false} NumberedCount<T>(m: map<nat, T>, n: nat)
    requires forall i: nat :: i in m <==> i < n
    ensures |m| == n
  {
    if n == 0 {
      assert m.Keys == {};
    } else {
      var rest := m - {n - 1};
      assert forall i: nat :: i in rest <==> i < n - 1;
      NumberedCount(rest, n - 1);
      assert m.Keys == rest.Keys + {n - 1};
    }
  }

  /** Any session, after any operations, failed ones included. */
  lemma SessionInEveryRun(q: Request, key: Option<string>, expires: int, ops: seq<Op>)
    ensures var s := RunRoom(NewRoom(q, key, expires), ops);
            && s.next == |s.segments| == |s.decisions|
            && (forall i: nat :: i < s.next <==> i in s.segments)
            && (forall i: nat :: i < s.next <==> i in s.decisions)
            && (forall i, j | i in s.segments && j in s.segments ::
                  s.segments[i].clientId == s.segments[j].clientId ==> i == j)
            && s.accumulated == Join(Transcripts(s.segments, s.next))
            && (forall k | k in s.decisions :: s.decisions[k].outcome == ForwardDefault <==> k in s.bindings)
            && s.jobs == s.bindings.Keys
  {
    var s := RunRoom(NewRoom(q, key, expires), ops);
    NewRoomIsGood(q, key, expires);
    RunKeeps(NewRoom(q, key, expires), ops);
    assert forall i: nat :: i in s.decisions.Keys <==> i in s.segments.Keys;
    NumberedCount(s.segments, s.next);
    NumberedCount(s.decisions, s.next);
  }

  /** The request frozen at routing is the conversation that any later reader rebuilds. */
  lemma RequestStaysFrozen(r: Room, ops: seq<Op>, k: nat)
    requires RoomInv(r) && k in r.bindings
    ensures var s := RunRoom(r, ops);
            && k in s.bindings
            && s.bindings[k].request == r.bindings[k].request
            && s.bindings[k].request == Conversation(s.segments, k)
  {
    RunKeeps(r, ops);
    var s := RunRoom(r, ops);
    assert k in s.bindings && k in s.decisions.Keys && k in s.segments.Keys;
  }

  /** Outcomes never change, and a settled decision is never touched again. */
  lemma DecisionsStay(r: Room, ops: seq<Op>, k: nat)
    requires RoomInv(r) && k in r.decisions
    ensures var s := RunRoom(r, ops);
            && k in s.decisions
            && s.decisions[k].outcome == r.decisions[k].outcome
            && (Final(r.decisions[k].result) ==> s.decisions[k] == r.decisions[k])
  {
    RunKeeps(r, ops);
  }

  /** With the owner's switch off nothing is ever forwarded, whatever the agent answers. */
  lemma SilentStaysSilent(q: Request, key: Option<string>, expires: int, ops: seq<Op>)
    requires !q.hermes
    ensures var s := RunRoom(NewRoom(q, key, expires), ops);
            && s.bindings == map[] && s.jobs == {}
            && forall k | k in s.decisions ::
                s.decisions[k].outcome == StoreSilent && s.decisions[k].result == StoredSilent
  {
    var s := RunRoom(NewRoom(q, key, expires), ops);
    NewRoomIsGood(q, key, expires);
    RunKeeps(NewRoom(q, key, expires), ops);
    assert forall k | k in s.decisions :: RowOk(s.decisions[k], false);
    assert s.bindings.Keys == {};
  }

  /** The clock of the operations that read one. */
  function Clock(op: Op): Option<int> {
    match op
    case DoAppend(_, _, _, _, now) => Some(now)
    case DoCommit(_, _, _, now) => Some(now)
    case DoMark(_, _, _, now) => Some(now)
    case DoReply(_, _, _, _, now) => Some(now)
    case DoMove(_, _, now) => Some(now)
    case DoRead(_, now) => Some(now)
    case DoRecover(now) => Some(now)
    case _ => None
  }

  predicate Delivers(d: Decision, e: Decision) {
    d.result != Delivered && e.result == Delivered
  }

  lemma DeliveryByCommit(r: Room, j: nat, o: RunResult, authority: Option<bool>, now: int, v: Room, k: nat)
    requires CommitResult(r, j, o, authority, now) == Ok(v)
    requires k in r.decisions && k in v.decisions && Delivers(r.decisions[k], v.decisions[k])
    ensures k == j && r.decisions[k].result == Queued && r.state != Expired && now < r.expires
    ensures k in r.bindings && r.bindings[k].run == Some(o.run) && authority == Some(true)
    ensures r.request.responses ==> k in v.replies && v.replies[k].text == o.content
  {
  }

  lemma DeliveryByMark(r: Room, j: nat, m: Mark, authority: Option<bool>, now: int, v: Room, k: nat)
    requires MarkDecision(r, j, m, authority, now) == Ok(v) && r.state != SessionFailed
    requires k in r.decisions && k in v.decisions && Delivers(r.decisions[k], v.decisions[k])
    requires RowOk(r.decisions[k], r.request.hermes)
    ensures k == j && r.decisions[k].result == Queued && r.state != Expired && now < r.expires
    ensures m.receipt.Some?
  {
  }

  lemma NoOtherDelivery(r: Room, op: Op, v: Room, k: nat)
    requires !op.DoCommit? && !op.DoMark? && v == After(r, op) && k in r.decisions && k in v.decisions
    ensures !Delivers(r.decisions[k], v.decisions[k])
  {
  }

  /** Delivery happens only to forwarded segments, by a commit or a mark, in a session that has not expired. */
  lemma HowDeliveryHappens(r: Room, op: Op, v: Room, k: nat)
    requires RoomInv(r) && v == After(r, op)
    requires k in r.decisions && k in v.decisions && Delivers(r.decisions[k], v.decisions[k])
    ensures r.request.hermes && k in r.bindings && r.decisions[k].result == Queued
    ensures r.state != Expired && Clock(op).Some? && Clock(op).value < r.expires
    ensures op.DoCommit? || (op.DoMark? && op.mark.receipt.Some?)
    ensures op.DoCommit? ==> r.bindings[k].run == Some(op.outcome.run) && op.authority == Some(true)
    ensures op.DoCommit? && r.request.responses ==> k in v.replies && v.replies[k].text == op.outcome.content
  {
    assert RowOk(r.decisions[k], r.request.hermes);
    match op
    case DoCommit(j, o, authority, now) => DeliveryByCommit(r, j, o, authority, now, v, k);
    case DoMark(j, m, authority, now) => DeliveryByMark(r, j, m, authority, now, v, k);
    case _ => NoOtherDelivery(r, op, v, k);
  }

  /** What a committed result leaves behind: the run of the binding and the receipt of the decision. */
  lemma CommitLeaves(r: Room, k: nat, o: RunResult, authority: Option<bool>, now: int, v: Room)
    requires CommitResult(r, k, o, authority, now) == Ok(v)
    ensures k in v.bindings && v.bindings[k].run == Some(o.run)
    ensures k in v.decisions && v.decisions[k].result == Delivered && SameResult(v.decisions[k].receipt, k, o)
  {
  }

  lemma CommitRepeats(s: Room, k: nat, o: RunResult, authority: Option<bool>, now: int, w: Room)
    requires CommitResult(s, k, o, authority, now) == Ok(w) && k in s.decisions && s.decisions[k].result == Delivered
    ensures w == s && SameResult(s.decisions[k].receipt, k, o) && k in s.bindings && s.bindings[k].run == Some(o.run)
  {
  }

  /** A segment is delivered once: whatever else commits to it later is the same result, and changes nothing. */
  lemma OneResultPerSegment(r: Room, k: nat, o: RunResult, authority: Option<bool>, now: int, v: Room, ops: seq<Op>,
                            o': RunResult, authority': Option<bool>, now': int, w: Room)
    requires RoomInv(r) && CommitResult(r, k, o, authority, now) == Ok(v)
    requires CommitResult(RunRoom(v, ops), k, o', authority', now') == Ok(w)
    ensures w == RunRoom(v, ops)
    ensures o'.run == o.run && o'.hash == o.hash && o'.messageId == o.messageId
  {
    var s := RunRoom(v, ops);
    CommitKeeps(r, k, o, authority, now);
    CommitLeaves(r, k, o, authority, now, v);
    DecisionsStay(v, ops, k);
    RunKeeps(v, ops);
    assert BindingGrows(v.bindings[k], s.bindings[k]);
    CommitRepeats(s, k, o', authority', now', w);
  }

  /**
   * A session becomes EXPIRED exactly when it is past its time and the operation commits: reading,
   * moving, recovering or marking it. An upload or a reply that finds it expired raises, and the
   * mark it made is rolled back.
   */
  lemma WhoExpiresSessions(r: Room, op: Op)
    requires r.state != Expired
    ensures After(r, op).state == Expired <==>
              && (op.DoRead? || op.DoMove? || op.DoRecover? || op.DoMark?)
              && Lapsed(r, op.now)
              && Perform(r, op).Ok?
              && !(op.DoRecover? && r.state == Stopped)
  {
    if op.DoAppend? && Perform(r, op).Ok? {
      assert After(r, op).state == r.state;
    }
  }

  // ---- processing -----------------------------------------------------------------------------

  /** What is sent to Hermes is the rebuilt conversation, never blank, and only with the owner's consent. */
  lemma SubmitsTheConversation(r: Room, k: nat, expected: Option<string>)
    requires RoomInv(r) && PlanSegment(r, k, expected).Submit?
    ensures PlanSegment(r, k, expected).request == Conversation(r.segments, k) != ""
    ensures r.request.hermes && r.state == Active && r.decisions[k].result == Queued
  {
    assert k in r.segments.Keys;
    assert RowOk(r.decisions[k], r.request.hermes);
  }

  /** In a sound session the worker refuses a segment only if it does not exist or its digest is not the queued one. */
  lemma WhenProcessingRefuses(r: Room, k: nat, expected: Option<string>)
    requires RoomInv(r)
    ensures PlanSegment(r, k, expected).Refuse? <==>
              || k !in r.segments
              || (&& r.decisions[k].outcome == ForwardDefault && r.decisions[k].result == Queued && r.state == Active
                  && expected.Some? && expected.value != r.segments[k].digest)
  {
    assert k in r.segments <==> k in r.decisions.Keys;
    assert r.decisions.Keys == r.segments.Keys;
  }

  lemma QueuedMarkTakes(r: Room, k: nat, result: Delivery, reason: string, now: int)
    requires k in r.decisions && r.decisions[k].result == Queued && (result == NoSpeech || result == EffectFailed)
    ensures var v := MarkDecision(r, k, Mark(None, Some(result), reason, None), Some(true), now);
            v.Ok? && v.value.decisions[k] == r.decisions[k].(result := result, reason := reason, receipt := None)
  {
  }

  /** When processing settles a segment without Hermes, the mark it makes takes effect. */
  lemma PlannedMarksTake(r: Room, k: nat, expected: Option<string>, now: int, p: Plan)
    requires p == PlanSegment(r, k, expected) && p.MarkAs?
    ensures var v := MarkDecision(r, k, Mark(None, Some(p.result), p.reason, None), Some(true), now);
            v.Ok? && v.value.decisions[k] == r.decisions[k].(result := p.result, reason := p.reason, receipt := None)
  {
    QueuedMarkTakes(r, k, p.result, p.reason, now);
  }
}
