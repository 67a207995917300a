/** The eavesdrop operations as the store runs them: on a copy of the rows that is kept only if nothing raises. */
module EavesdropStore {
  import opened Text
  import opened Wrappers
  import opened Eavesdrop
  import opened EavesdropSafety
  import opened EavesdropOutcomes

  /** The operation happened to this session and to no other; a raised error changed nothing. */
  ghost predicate Settled<T>(before: map<string, Room>, id: string, op: Op, after: map<string, Room>,
                             r: Result<T, Error>)
  {
    if id !in before then
      after == before && r == Err(NotFound)
    else
      && after == before[id := After(before[id], op)]
      && (r.Ok? <==> Perform(before[id], op).Ok?)
      && (r.Err? ==> r.error == Perform(before[id], op).error && after == before)
  }

  lemma Unchanged<T>(before: map<string, Room>, id: string, op: Op, r: Result<T, Error>)
    requires id in before && r.Err? && Perform(before[id], op) == Err(r.error)
    ensures Settled(before, id, op, before, r)
  {
    assert before[id := before[id]] == before;
  }

  ghost predicate AllGood(rooms: map<string, Room>) {
    forall id | id in rooms :: RoomInv(rooms[id])
  }

  ghost predicate UniqueKeys(rooms: map<string, Room>) {
    forall i, j | i in rooms && j in rooms :: rooms[i].key.Some? && rooms[i].key == rooms[j].key ==> i == j
  }

  /** Every session is as it was, or has grown from what it was. */
  ghost predicate AllGrow(before: map<string, Room>, after: map<string, Room>) {
    forall id | id in before :: id in after && Grows(before[id], after[id])
  }

  lemma ReplacedUnique(before: map<string, Room>, id: string, r: Room)
    requires UniqueKeys(before) && id in before && r.key == before[id].key
    ensures UniqueKeys(before[id := r])
  {
    var after := before[id := r];
    assert forall i | i in after :: i in before && after[i].key == before[i].key;
  }

  lemma Replaced(before: map<string, Room>, id: string, r: Room)
    requires AllGood(before) && UniqueKeys(before)
    requires id in before && RoomInv(r) && Grows(before[id], r)
    ensures AllGood(before[id := r]) && UniqueKeys(before[id := r]) && AllGrow(before, before[id := r])
  {
    ReplacedUnique(before, id, r);
    forall i | i in before
      ensures Grows(before[i], before[id := r][i])
    {
    }
  }

  /** One operation on one session keeps every session sound, and none loses anything. */
  lemma SettledKeeps(before: map<string, Room>, id: string, op: Op)
    requires AllGood(before) && UniqueKeys(before) && id in before
    ensures var after := before[id := After(before[id], op)];
            AllGood(after) && UniqueKeys(after) && AllGrow(before, after)
  {
    OpKeeps(before[id], op);
    Replaced(before, id, After(before[id], op));
  }

  /** What the rows are after an operation that returned. */
  lemma SettledOk<T>(before: map<string, Room>, id: string, op: Op, v: Room, r: Result<T, Error>)
    requires AllGood(before) && UniqueKeys(before) && id in before && Perform(before[id], op) == Ok(v) && r.Ok?
    ensures Settled(before, id, op, before[id := v], r)
    ensures AllGood(before[id := v]) && UniqueKeys(before[id := v]) && AllGrow(before, before[id := v])
  {
    SettledKeeps(before, id, op);
  }

  lemma SameRooms(rooms: map<string, Room>)
    ensures AllGrow(rooms, rooms)
  {
  }

  lemma AppendPerforms(r: Room, owner: Owner, u: Upload, hit: Option<nat>, agent: Answer, now: int)
    requires Hits(r, u, hit)
    ensures Perform(r, DoAppend(owner, u, hit, agent, now)) == Append(r, owner, u, hit, agent, now)
  {
  }

  lemma InsertedUnique(before: map<string, Room>, id: string, r: Room)
    requires UniqueKeys(before) && id !in before
    requires r.key.Some? ==> forall i | i in before :: before[i].key != r.key
    ensures UniqueKeys(before[id := r])
  {
  }

  lemma Inserted(before: map<string, Room>, id: string, r: Room)
    requires AllGood(before) && UniqueKeys(before) && id !in before && RoomInv(r)
    requires r.key.Some? ==> forall i | i in before :: before[i].key != r.key
    ensures AllGood(before[id := r]) && UniqueKeys(before[id := r]) && AllGrow(before, before[id := r])
  {
    InsertedUnique(before, id, r);
    forall i | i in before
      ensures Grows(before[i], before[id := r][i])
    {
    }
  }

  /** No session has the id or the key already, unless it is the same request with the same key. */
  predicate Startable(rooms: map<string, Room>, id: string, q: Request, key: Option<string>) {
    if id in rooms then rooms[id].request == q && (key.Some? ==> rooms[id].key == key)
    else key.Some? ==> forall i | i in rooms && rooms[i].key == key :: rooms[i].request == q
  }

  // ---- the loops ----------------------------------------------------------------------------

  /** The newline join over the history rows in sequence order. */
  method BuildConversation(segments: map<nat, Segment>, k: nat) returns (text: string)
    ensures text == Conversation(segments, k)
  {
    text := "";
    var empty := true;
    var i := 0;
    while i <= k
      invariant 0 <= i <= k + 1
      invariant text == Join(Spoken(segments, i)) && (empty <==> Spoken(segments, i) == [])
    {
      if i in segments && segments[i].transcript.Some? {
        var said := Strip(segments[i].transcript.value);
        if said != "" {
          JoinSnoc(Spoken(segments, i), said);
          text := if empty then said else text + "\n" + said;
          empty := false;
        }
      }
      assert SpokenAt(segments, i) == [] ==> Spoken(segments, i) + [] == Spoken(segments, i);
      i := i + 1;
    }
  }

  /** The duplicate lookup; rows come in no particular order. */
  method FindDuplicate(r: Room, u: Upload) returns (hit: Option<nat>)
    ensures Hits(r, u, hit)
  {
    var left := r.segments.Keys;
    while left != {}
      invariant left <= r.segments.Keys
      invariant forall i | i in r.segments && i !in left ::
                  i != u.sequence && r.segments[i].clientId != u.segment.clientId
      decreases |left|
    {
      var i :| i in left;
      if i == u.sequence || r.segments[i].clientId == u.segment.clientId {
        return Some(i);
      }
      left := left - {i};
    }
    hit := None;
  }

  method RouteRow(r: Room, k: nat, agent: Answer) returns (v: Result<Room, Error>)
    requires k in r.segments
    ensures v == RouteSegment(r, k, agent) && RouteOutcome(r, k, agent, v)
  {
    WhenRouted(r, k, agent);
    if k in r.decisions {
      return Ok(r);
    }
    var outcome, reason := "STORE_SILENT", "hermes_disabled";
    if r.request.hermes {
      if agent.Fails? || agent.Malformed? {
        return Err(Invalid);
      }
      outcome, reason := agent.outcome, agent.reason;
      if outcome != "FORWARD_DEFAULT" && outcome != "STORE_SILENT" {
        return Err(Invalid);
      }
      if !agent.labelled {
        return Err(Invalid);
      }
    }
    var row := r;
    if outcome == "STORE_SILENT" {
      row := row.(decisions := row.decisions[k := Decision(StoreSilent, reason, StoredSilent, None)]);
    } else {
      var conversation := BuildConversation(row.segments, k);
      row := row.(bindings := row.bindings[k := Binding(row.segments[k].digest, conversation, None)]);
      row := row.(jobs := row.jobs + {k});
      row := row.(decisions := row.decisions[k := Decision(ForwardDefault, reason, Queued, None)]);
    }
    v := Ok(row);
  }

  /** The body of the append transaction, given the row the duplicate lookup would return. */
  method AppendToRow(row0: Room, owner: Owner, u: Upload, found: Option<nat>, agent: Answer, now: int)
    returns (r: Result<Room, Error>)
    requires Hits(row0, u, found)
    ensures r == Append(row0, owner, u, found, agent, now)
    ensures RoomInv(row0) ==> AppendOutcome(row0, owner, u, found, agent, now, r)
  {
    if RoomInv(row0) {
      WhenAppended(row0, owner, u, found, agent, now);
    }
    var row := row0;
    if u.segment.length == 0 {
      return Err(Invalid);
    }
    if row.request.owner != owner {
      return Err(Unauthorized);
    }
    if row.state != Active {
      return Err(Conflict);
    }
    if row.expires <= now {
      row := row.(state := Expired);
      return Err(Conflict);
    }
    if found.Some? {
      var e := row.segments[found.value];
      if e.digest != u.segment.digest || e.length != u.segment.length {
        return Err(Conflict);
      }
      if u.segment.transcript.Some? && e.transcript != u.segment.transcript {
        return Err(Conflict);
      }
      return Ok(row);
    }
    if u.sequence != row.next {
      return Err(Conflict);
    }
    row := row.(segments := row.segments[u.sequence := u.segment]);
    var combined := row.accumulated;
    if u.segment.transcript.Some? && u.segment.transcript.value != "" {
      combined := if combined == "" then u.segment.transcript.value else combined + "\n" + u.segment.transcript.value;
    }
    row := row.(accumulated := combined, next := u.sequence + 1);
    r := RouteRow(row, u.sequence, agent);
  }

  // ---- the store ----------------------------------------------------------------------------

  class Sessions {
    var rooms: map<string, Room>

    constructor ()
      ensures rooms == map[] && Valid()
    {
      rooms := map[];
    }

    ghost predicate Valid()
      reads this
    {
      AllGood(rooms) && UniqueKeys(rooms)
    }

    /** Starting twice with one id or one key gives the first session again, or a conflict; never a change to it. */
    method StartEavesdrop(id: string, q: Request, key: Option<string>, seconds: int, now: int)
      returns (r: Result<string, Error>)
      requires Valid()
      modifies this
      ensures Valid() && AllGrow(old(rooms), rooms)
      ensures r.Ok? && r.value !in old(rooms) ==> rooms == old(rooms)[r.value := NewRoom(q, key, now + 1000 * seconds)]
      ensures r.Ok? && r.value in old(rooms) ==> rooms == old(rooms) && rooms[r.value].request == q
      ensures r.Ok? && key.Some? ==> rooms[r.value].key == key
      ensures r.Err? ==> rooms == old(rooms)
      ensures r.Ok? <==> 1 <= seconds <= 86400 && Startable(old(rooms), id, q, key)
      ensures r.Ok? && r.value !in old(rooms) ==> r.value == id
    {
      if !(1 <= seconds <= 86400) {
        return Err(Invalid);
      }
      var earlier := FindSession(id, q, key);
      if earlier.Err? {
        return Err(earlier.error);
      }
      if earlier.value.Some? {
        return Ok(earlier.value.value);
      }
      var row := NewRoom(q, key, now + 1000 * seconds);
      NewRoomIsGood(q, key, now + 1000 * seconds);
      rooms := rooms[id := row];
      Inserted(old(rooms), id, row);
      r := Ok(id);
    }

    /** The earlier session with this id or key, if the request is the same. */
    method FindSession(id: string, q: Request, key: Option<string>) returns (r: Result<Option<string>, Error>)
      ensures r.Ok? && r.value.Some? ==>
                r.value.value in rooms && rooms[r.value.value].request == q &&
                (key.Some? ==> rooms[r.value.value].key == key)
      ensures r.Ok? && r.value.None? ==>
                id !in rooms && (key.Some? ==> forall i | i in rooms :: rooms[i].key != key)
      ensures UniqueKeys(rooms) ==> (r.Ok? <==> Startable(rooms, id, q, key))
    {
      if id in rooms {
        var existing := rooms[id];
        if existing.request.owner != q.owner || existing.request != q {
          return Err(Conflict);
        }
        if key.Some? && existing.key != key {
          return Err(Conflict);
        }
        return Ok(Some(id));
      }
      if key.None? {
        return Ok(None);
      }
      var other := FindKey(key);
      if other.Some? && rooms[other.value].request != q {
        return Err(Conflict);
      }
      r := Ok(other);
    }

    method FindKey(key: Option<string>) returns (found: Option<string>)
      ensures found.Some? ==> found.value in rooms && rooms[found.value].key == key
      ensures found.None? ==> forall i | i in rooms :: rooms[i].key != key
    {
      var left := rooms.Keys;
      while left != {}
        invariant left <= rooms.Keys
        invariant forall i | i in rooms && i !in left :: rooms[i].key != key
        decreases |left|
      {
        var i :| i in left;
        if rooms[i].key == key {
          return Some(i);
        }
        left := left - {i};
      }
      found := None;
    }

    method AppendEavesdropSegment(id: string, owner: Owner, u: Upload, agent: Answer, now: int)
      returns (r: Result<bool, Error>, ghost hit: Option<nat>)
      requires Valid() && id in rooms
      modifies this
      ensures Valid() && AllGrow(old(rooms), rooms)
      ensures Hits(old(rooms)[id], u, hit)
      ensures Settled(old(rooms), id, DoAppend(owner, u, hit, agent, now), rooms, r)
      ensures r.Ok? ==> (r.value <==> hit.Some?)
      ensures AppendOutcome(old(rooms)[id], owner, u, hit, agent, now, if r.Ok? then Ok(rooms[id]) else Err(r.error))
    {
      var found := FindDuplicate(rooms[id], u);
      hit := found;
      ghost var op := DoAppend(owner, u, found, agent, now);
      var v := AppendToRow(rooms[id], owner, u, found, agent, now);
      AppendPerforms(rooms[id], owner, u, found, agent, now);
      if v.Err? {
        r := Err(v.error);
        Unchanged(rooms, id, op, r);
        SameRooms(rooms);
        return;
      }
      r := Ok(found.Some?);
      SettledOk(rooms, id, op, v.value, r);
      rooms := rooms[id := v.value];
    }

    method CommitEavesdropResult(id: string, k: nat, o: RunResult, authority: Option<bool>, now: int)
      returns (r: Result<(), Error>)
      requires Valid() && id in rooms
      modifies this
      ensures Valid() && AllGrow(old(rooms), rooms)
      ensures Settled(old(rooms), id, DoCommit(k, o, authority, now), rooms, r)
      ensures CommitOutcome(old(rooms)[id], k, o, authority, now, if r.Ok? then Ok(rooms[id]) else Err(r.error))
    {
      var v := CommitRow(rooms[id], k, o, authority, now);
      if v.Err? {
        r := Err(v.error);
        Unchanged(rooms, id, DoCommit(k, o, authority, now), r);
        SameRooms(rooms);
        return;
      }
      r := Ok(());
      SettledOk(rooms, id, DoCommit(k, o, authority, now), v.value, r);
      rooms := rooms[id := v.value];
    }

    method MarkEavesdropDecision(id: string, k: nat, m: Mark, authority: Option<bool>, now: int)
      returns (r: Result<(), Error>)
      requires Valid() && id in rooms
      modifies this
      ensures Valid() && AllGrow(old(rooms), rooms)
      ensures Settled(old(rooms), id, DoMark(k, m, authority, now), rooms, r)
    {
      var v := MarkRow(rooms[id], k, m, authority, now);
      if v.Err? {
        r := Err(v.error);
        Unchanged(rooms, id, DoMark(k, m, authority, now), r);
        SameRooms(rooms);
        return;
      }
      r := Ok(());
      SettledOk(rooms, id, DoMark(k, m, authority, now), v.value, r);
      rooms := rooms[id := v.value];
    }

    /** The operations without a loop or a chain of checks of their own. */
    method RunOperation(id: string, op: Op) returns (r: Result<(), Error>)
      requires Valid()
      modifies this
      ensures Valid() && AllGrow(old(rooms), rooms)
      ensures Settled(old(rooms), id, op, rooms, r)
    {
      if id !in rooms {
        return Err(NotFound);
      }
      var v := Perform(rooms[id], op);
      if v.Err? {
        r := Err(v.error);
        Unchanged(rooms, id, op, r);
        SameRooms(rooms);
        return;
      }
      r := Ok(());
      SettledOk(rooms, id, op, v.value, r);
      rooms := rooms[id := v.value];
    }

    method RecoverEavesdrop(now: int) returns (expired: nat)
      requires Valid()
      modifies this
      ensures Valid() && AllGrow(old(rooms), rooms)
      ensures Recovered(old(rooms), rooms, now) && expired == |Changed(old(rooms), old(rooms).Keys, now)|
    {
      var after;
      after, expired := RecoverRows(rooms, now);
      RecoveredKeeps(rooms, after, now);
      rooms := after;
    }
  }

  // ---- startup recovery ---------------------------------------------------------------------

  /** Every lapsed session that is not STOPPED has expired; nothing else differs. */
  ghost predicate Recovered(before: map<string, Room>, after: map<string, Room>, now: int) {
    after.Keys == before.Keys && forall id | id in before :: after[id] == RecoverRoom(before[id], now)
  }

  ghost function Changed(before: map<string, Room>, ids: set<string>, now: int): set<string> {
    set id | id in ids && id in before && RecoverRoom(before[id], now) != before[id]
  }

  lemma RecoveredKeeps(before: map<string, Room>, after: map<string, Room>, now: int)
    requires AllGood(before) && UniqueKeys(before) && Recovered(before, after, now)
    ensures AllGood(after) && UniqueKeys(after) && AllGrow(before, after)
  {
    forall id | id in after
      ensures id in before && RoomInv(after[id]) && Grows(before[id], after[id]) && after[id].key == before[id].key
    {
      assert id in before.Keys;
      OpKeeps(before[id], DoRecover(now));
    }
  }

  method RecoverRow(r: Room, now: int) returns (v: Room, changed: bool)
    ensures v == RecoverRoom(r, now) && (changed <==> v != r)
  {
    if (r.state == Created || r.state == Active || r.state == Paused || r.state == Stopping) && r.expires <= now {
      return r.(state := Expired), true;
    }
    return r, false;
  }

  lemma ChangedMore(before: map<string, Room>, left: set<string>, id: string, now: int)
    requires id in left && left <= before.Keys
    ensures |Changed(before, before.Keys - (left - {id}), now)| ==
            |Changed(before, before.Keys - left, now)| + if RecoverRoom(before[id], now) != before[id] then 1 else 0
  {
    var done := Changed(before, before.Keys - left, now);
    var more := if RecoverRoom(before[id], now) != before[id] then {id} else {};
    assert Changed(before, before.Keys - (left - {id}), now) == done + more;
  }

  /** All but the sessions in `left` have been recovered. */
  ghost predicate RecoveredTo(before: map<string, Room>, after: map<string, Room>, left: set<string>, now: int) {
    && left <= before.Keys == after.Keys
    && forall id | id in before :: after[id] == if id in left then before[id] else RecoverRoom(before[id], now)
  }

  lemma RecoveredNext(before: map<string, Room>, after: map<string, Room>, left: set<string>, id: string, now: int)
    requires RecoveredTo(before, after, left, now) && id in left
    ensures RecoveredTo(before, after[id := RecoverRoom(before[id], now)], left - {id}, now)
  {
    assert after[id := RecoverRoom(before[id], now)].Keys == after.Keys;
  }

  method RecoverRows(before: map<string, Room>, now: int) returns (after: map<string, Room>, expired: nat)
    ensures Recovered(before, after, now) && expired == |Changed(before, before.Keys, now)|
  {
    after, expired := before, 0;
    var left := before.Keys;
    while left != {}
      invariant RecoveredTo(before, after, left, now)
      invariant expired == |Changed(before, before.Keys - left, now)|
      decreases |left|
    {
      var id :| id in left;
      var row, changed := RecoverRow(before[id], now);
      ChangedMore(before, left, id, now);
      RecoveredNext(before, after, left, id, now);
      left, after := left - {id}, after[id := row];
      if changed {
        expired := expired + 1;
      }
    }
    assert before.Keys - left == before.Keys;
  }

  method CommitRow(row0: Room, k: nat, o: RunResult, authority: Option<bool>, now: int) returns (r: Result<Room, Error>)
    ensures r == CommitResult(row0, k, o, authority, now) && CommitOutcome(row0, k, o, authority, now, r)
  {
    WhenCommitted(row0, k, o, authority, now);
    var row := row0;
    if !o.terminal || Strip(o.content) == "" || o.messageId == "" || o.run == "" {
      return Err(Invalid);
    }
    if authority.None? || !authority.value {
      return Err(LeaseConflict);
    }
    if k !in row.bindings {
      return Err(Conflict);
    }
    var binding := row.bindings[k];
    if binding.run != Some(o.run) || !o.provenance {
      return Err(Conflict);
    }
    if k !in row.segments || k !in row.decisions {
      return Err(NotFound);
    }
    var decision := row.decisions[k];
    if row.segments[k].digest != binding.digest {
      return Err(Conflict);
    }
    if row.state !in {Active, Paused, Stopping} || row.expires <= now {
      return Err(Conflict);
    }
    if decision.outcome != ForwardDefault {
      return Err(Conflict);
    }
    if decision.result == Delivered {
      if !SameResult(decision.receipt, k, o) {
        return Err(Conflict);
      }
      return Ok(row);
    }
    if decision.result != Queued {
      return Err(Conflict);
    }
    if row.request.responses {
      if k in row.replies && (row.replies[k].hash != o.hash || row.replies[k].text != o.content) {
        return Err(Conflict);
      }
      if k !in row.replies {
        row := row.(replies := row.replies[k := Reply(o.hash, o.content, false, true)]);
      }
    }
    decision := decision.(result := Delivered, reason := "hermes_response_available");
    decision := decision.(receipt := Some(Receipt(Some(o.hash), Some(o.messageId), Some(k), "hermes-run")));
    r := Ok(row.(decisions := row.decisions[k := decision]));
  }

  /** The checks on the arguments alone. */
  method CheckMark(asked: Mark) returns (r: Result<Mark, Error>)
    ensures r.Ok? <==> && (Modern(asked).word.Some? ==> Modern(asked).word.value.Names?)
                       && Modern(asked).result.Some?
                       && (Modern(asked).result == Some(Delivered) ==> Modern(asked).receipt.Some?)
    ensures r.Ok? ==> r.value == Modern(asked)
    ensures r.Err? ==> r.error == Invalid
  {
    var word, result := asked.word, asked.result;
    if word.Some? && word.value.Legacy? && word.value.result in {NoSpeech, Delivered, EffectFailed} && result.None? {
      result, word := Some(word.value.result), None;
    }
    if word.Some? && !word.value.Names? {
      return Err(Invalid);
    }
    if result.None? {
      return Err(Invalid);
    }
    if result.value == Delivered && asked.receipt.None? {
      return Err(Invalid);
    }
    r := Ok(asked.(word := word, result := result));
  }

  method MarkRow(row0: Room, k: nat, asked: Mark, authority: Option<bool>, now: int) returns (r: Result<Room, Error>)
    ensures r == MarkDecision(row0, k, asked, authority, now)
  {
    var m :- CheckMark(asked);
    if authority.Some? && !authority.value {
      return Err(LeaseConflict);
    }
    var row := row0;
    if row.state in {Created, Active, Paused, Stopping, Stopped} && row.expires <= now {
      row := row.(state := Expired);
      if m.result.value in {Queued, Delivered} {
        m := m.(result := Some(EffectFailed), reason := "session_expired", receipt := None);
      }
    } else if row.state == Expired && m.result.value in {Queued, Delivered} {
      m := m.(result := Some(EffectFailed), reason := "session_expired", receipt := None);
    }
    r := MarkStored(row, k, m);
  }

  /** The decision row, once the session has had its say. */
  method MarkStored(row: Room, k: nat, m: Mark) returns (r: Result<Room, Error>)
    requires m.result.Some? && (m.word.Some? ==> m.word.value.Names?)
    ensures r == SettleMark(row, k, m)
  {
    if k !in row.decisions {
      return Err(NotFound);
    }
    var d := row.decisions[k];
    if m.word.Some? && d.outcome != m.word.value.outcome {
      return Err(Conflict);
    }
    if d.result in {Delivered, NoSpeech, EffectFailed, StoredSilent} {
      if d.result != m.result.value && m.result.value != Queued {
        return Err(Conflict);
      }
      return Ok(row);
    }
    d := d.(reason := m.reason, result := m.result.value, receipt := m.receipt);
    r := Ok(row.(decisions := row.decisions[k := d]));
  }
}
