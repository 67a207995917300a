/** What projecting a response keeps: everything, for values the validator accepts under unambiguous schemas. */
module SchemaProjection {
  import opened Wrappers
  import opened Schemas

  // ---- only declared keys ---------------------------------------------------------------------

  /** Wherever an object meets an object schema, its keys are declared there or additionally allowed. */
  ghost predicate Declared(s: Schema, v: Value)
    decreases s, 1
  {
    if v.Null? then true
    else if s.choice.OneOf? && s.choice.alternatives != [] then
      exists i | 0 <= i < |s.choice.alternatives| :: Declared(s.choice.alternatives[i], v)
    else if s.choice.AnyOf? then
      || (exists i | 0 <= i < |s.choice.alternatives| :: Declared(s.choice.alternatives[i], v))
      || (forall i | 0 <= i < |s.choice.alternatives| :: !Valid(s.choice.alternatives[i], v))
    else if s.kind == Some(ObjectType) && v.Object? then DeclaredFields(s, v.fields)
    else if s.kind == Some(ArrayType) && v.List? && s.items.ItemsOf? then
      forall i | 0 <= i < |v.items| :: Declared(s.items.item, v.items[i])
    else true
  }

  ghost predicate DeclaredFields(s: Schema, fields: map<string, Value>)
    decreases s, 0
  {
    && (s.additional.Unsaid? || s.additional.Forbidden? ==> forall k | k in fields :: k in s.properties)
    && (forall k | k in fields && k in s.properties :: Declared(s.properties[k], fields[k]))
    && (s.additional.Each? ==> forall k | k in fields && k !in s.properties :: Declared(s.additional.schema, fields[k]))
  }

  /** For every schema and every value, valid or not, the projection holds declared keys only, at every depth. */
  lemma {:induction false} ProjectionIsDeclared(s: Schema, v: Value)
    ensures Declared(s, Project(s, v))
    decreases s, 1
  {
    if v.Null? {
    } else if s.choice.OneOf? && s.choice.alternatives != [] {
      ProjectionIsDeclared(s.choice.alternatives[Chosen(s.choice.alternatives, 0, v)], v);
    } else if s.choice.AnyOf? {
      var c := FirstValid(s.choice.alternatives, 0, v);
      if c.Some? {
        ProjectionIsDeclared(s.choice.alternatives[c.value], v);
      }
    } else if s.kind == Some(ObjectType) && v.Object? {
      FieldsAreDeclared(s, v.fields);
    } else if s.kind == Some(ArrayType) && v.List? && s.items.ItemsOf? {
      forall i | 0 <= i < |v.items|
        ensures Declared(s.items.item, Project(s, v).items[i])
      {
        ProjectionIsDeclared(s.items.item, v.items[i]);
      }
    }
  }

  lemma {:induction false} FieldsAreDeclared(s: Schema, fields: map<string, Value>)
    ensures DeclaredFields(s, ProjectFields(s, fields))
    decreases s, 0
  {
    var w := ProjectFields(s, fields);
    forall k | k in w
      ensures k in s.properties ==> Declared(s.properties[k], w[k])
      ensures k !in s.properties && s.additional.Each? ==> Declared(s.additional.schema, w[k])
    {
      if k in s.properties {
        ProjectionIsDeclared(s.properties[k], fields[k]);
      } else if s.additional.Each? {
        ProjectionIsDeclared(s.additional.schema, fields[k]);
      }
    }
  }

  // ---- identity on accepted values --------------------------------------------------------------

  predicate ClosedObject(s: Schema) {
    s.choice.Plain? && s.kind == Some(ObjectType) && s.additional.Forbidden? && !s.binary
  }

  /** An earlier alternative's required names all lie among a later one's properties. */
  predicate Shadows(earlier: Schema, later: Schema) {
    forall n | n in earlier.required :: n in later.properties
  }

  ghost predicate Unambiguous(alternatives: seq<Schema>) {
    && (forall i | 0 <= i < |alternatives| :: ClosedObject(alternatives[i]))
    && (forall i, j | 0 <= i < j < |alternatives| :: !Shadows(alternatives[i], alternatives[j]))
  }

  /** Explicit additionalProperties and unambiguous oneOf lists, at every depth. */
  ghost predicate Faithful(s: Schema) {
    match s.choice
    case OneOf(alternatives) =>
      Unambiguous(alternatives) && forall i | 0 <= i < |alternatives| :: Faithful(alternatives[i])
    case AnyOf(alternatives) => forall i | 0 <= i < |alternatives| :: Faithful(alternatives[i])
    case Plain =>
      && (s.kind == Some(ObjectType) ==> !s.additional.Unsaid?)
      && (forall k | k in s.properties :: Faithful(s.properties[k]))
      && (s.additional.Each? ==> Faithful(s.additional.schema))
      && (s.items.ItemsOf? ==> Faithful(s.items.item))
  }

  lemma {:induction false} NoneOfThese(s: Schema, n: nat, v: Value)
    requires !s.choice.Plain? && n <= |s.choice.alternatives| && Matches(s, n, v) == 0
    ensures forall i | 0 <= i < n :: !Valid(s.choice.alternatives[i], v)
    decreases n
  {
    if n > 0 {
      NoneOfThese(s, n - 1, v);
    }
  }

  lemma {:induction false} OneOfThese(s: Schema, n: nat, v: Value) returns (j: nat)
    requires !s.choice.Plain? && n <= |s.choice.alternatives| && Matches(s, n, v) == 1
    ensures j < n && Valid(s.choice.alternatives[j], v)
    ensures forall i | 0 <= i < n && i != j :: !Valid(s.choice.alternatives[i], v)
    decreases n
  {
    if Valid(s.choice.alternatives[n - 1], v) {
      NoneOfThese(s, n - 1, v);
      j := n - 1;
    } else {
      j := OneOfThese(s, n - 1, v);
    }
  }

  /** The projector picks the alternative the validator accepted. */
  lemma ChosenIsValid(alternatives: seq<Schema>, i: nat, j: nat, v: Value)
    requires Unambiguous(alternatives) && i <= j < |alternatives|
    requires !v.Null? && Valid(alternatives[j], v)
    ensures Chosen(alternatives, i, v) == j
    decreases j - i
  {
    assert ClosedObject(alternatives[j]);
    if i < j {
      assert !Shadows(alternatives[i], alternatives[j]);
      ChosenIsValid(alternatives, i + 1, j, v);
    }
  }

  /** Projection loses nothing: it is the identity on every value the validator accepts. */
  lemma {:induction false} ProjectionIsIdentity(s: Schema, v: Value)
    requires Faithful(s) && Valid(s, v)
    ensures Project(s, v) == v
    decreases s, 1
  {
    if v.Null? {
    } else if s.choice.OneOf? && s.choice.alternatives != [] {
      IdentityOfChoice(s, v);
    } else if s.choice.AnyOf? {
      var c := FirstValid(s.choice.alternatives, 0, v);
      if c.Some? {
        ProjectionIsIdentity(s.choice.alternatives[c.value], v);
      }
    } else if s.choice.Plain? && s.kind == Some(ObjectType) && v.Object? {
      IdentityOfFields(s, v.fields);
    } else if s.choice.Plain? && s.kind == Some(ArrayType) && v.List? && s.items.ItemsOf? {
      forall i | 0 <= i < |v.items|
        ensures Project(s, v).items[i] == v.items[i]
      {
        ProjectionIsIdentity(s.items.item, v.items[i]);
      }
    }
  }

  lemma {:induction false} IdentityOfChoice(s: Schema, v: Value)
    requires Faithful(s) && Valid(s, v) && !v.Null? && s.choice.OneOf? && s.choice.alternatives != []
    ensures Project(s, v) == v
    decreases s, 0
  {
    var alternatives := s.choice.alternatives;
    if s.binary {
      assert ClosedObject(alternatives[0]);
    } else {
      var j := OneOfThese(s, |alternatives|, v);
      ChosenIsValid(alternatives, 0, j, v);
      ProjectionIsIdentity(alternatives[j], v);
    }
  }

  lemma {:induction false} IdentityOfFields(s: Schema, fields: map<string, Value>)
    requires s.choice.Plain? && s.kind == Some(ObjectType) && Faithful(s) && ValidObject(s, fields)
    ensures ProjectFields(s, fields) == fields
    decreases s, 0
  {
    var w := ProjectFields(s, fields);
    assert w.Keys == fields.Keys;
    forall k | k in fields
      ensures w[k] == fields[k]
    {
      if k in s.properties {
        ProjectionIsIdentity(s.properties[k], fields[k]);
      } else if s.additional.Each? {
        ProjectionIsIdentity(s.additional.schema, fields[k]);
      }
    }
  }

  // ---- exactly when identity fails --------------------------------------------------------------

  /** A schema without structure of its own: projection copies whatever is there, valid or not. */
  predicate Leaf(s: Schema) {
    && s.choice.Plain? && s.kind != Some(ObjectType) && s.kind != Some(ArrayType)
    && s.properties == map[] && s.additional.Unsaid? && s.items.AnyItems?
  }

  lemma LeafCopies(s: Schema, v: Value)
    requires Leaf(s)
    ensures Project(s, v) == v && Faithful(s)
  {
  }

  lemma FlatIsFaithful(s: Schema)
    requires FlatObject(s) && s.items.AnyItems?
    ensures Faithful(s)
  {
    forall k | k in s.properties
      ensures Faithful(s.properties[k])
    {
      LeafCopies(s.properties[k], Null);
    }
  }

  predicate FlatObject(s: Schema) {
    ClosedObject(s) && forall k | k in s.properties :: Leaf(s.properties[k])
  }

  /**
   * A oneOf of flat objects keeps an object exactly when the first alternative it qualifies for declares all its keys.
   */
  lemma WhenChoiceLosesNothing(s: Schema, fields: map<string, Value>)
    requires s.choice.OneOf? && s.choice.alternatives != []
    requires forall i | 0 <= i < |s.choice.alternatives| :: FlatObject(s.choice.alternatives[i])
    ensures var c := Chosen(s.choice.alternatives, 0, Object(fields));
            Project(s, Object(fields)) == Object(fields) <==>
            forall k | k in fields :: k in s.choice.alternatives[c].properties
  {
    var t := s.choice.alternatives[Chosen(s.choice.alternatives, 0, Object(fields))];
    assert FlatObject(t);
    var w := ProjectFields(t, fields);
    forall k | k in w
      ensures w[k] == fields[k]
    {
      LeafCopies(t.properties[k], fields[k]);
    }
    assert Project(s, Object(fields)) == Object(w);
    if forall k | k in fields :: k in t.properties {
      assert w == fields;
    }
  }

  /** With additionalProperties left out, the validator lets extra keys through and the projector drops them. */
  lemma WhenOpenObjectLosesNothing(s: Schema, fields: map<string, Value>)
    requires s.choice.Plain? && s.kind == Some(ObjectType) && s.additional.Unsaid?
    requires (forall k | k in s.properties :: Faithful(s.properties[k])) && ValidObject(s, fields)
    ensures Project(s, Object(fields)) == Object(fields) <==> forall k | k in fields :: k in s.properties
  {
    var w := ProjectFields(s, fields);
    forall k | k in w
      ensures w[k] == fields[k]
    {
      ProjectionIsIdentity(s.properties[k], fields[k]);
    }
    if forall k | k in fields :: k in s.properties {
      assert w == fields;
    }
  }

  // ---- what the validator accepts ----------------------------------------------------------------

  /** Alternative j, and no other, accepts the value. */
  predicate OnlyAccepts(s: Schema, j: nat, v: Value)
    requires !s.choice.Plain?
  {
    && j < |s.choice.alternatives| && Valid(s.choice.alternatives[j], v)
    && forall i | 0 <= i < |s.choice.alternatives| && i != j :: !Valid(s.choice.alternatives[i], v)
  }

  lemma {:induction false} MatchesOnly(s: Schema, n: nat, j: nat, v: Value)
    requires !s.choice.Plain? && n <= |s.choice.alternatives| && OnlyAccepts(s, j, v)
    ensures Matches(s, n, v) == if j < n then 1 else 0
    decreases n
  {
    if n > 0 {
      MatchesOnly(s, n - 1, j, v);
    }
  }

  /** A oneOf accepts what exactly one of its alternatives accepts. */
  lemma WhenOneOfAccepts(s: Schema, v: Value)
    requires s.choice.OneOf? && !s.binary && !v.Null?
    ensures Valid(s, v) <==> exists j :: OnlyAccepts(s, j, v)
  {
    var n := |s.choice.alternatives|;
    if Matches(s, n, v) == 1 {
      var j := OneOfThese(s, n, v);
      assert OnlyAccepts(s, j, v);
    }
    if j: nat :| OnlyAccepts(s, j, v) {
      MatchesOnly(s, n, j, v);
    }
  }

  /** Text, numbers and flags are told apart: a flag is no number, and a whole number is a number. */
  predicate IsA(kind: Type, v: Value) {
    || (kind == StringType && v.Str?) || (kind == BooleanType && v.Bool?) || (kind == IntegerType && v.Int?)
    || (kind == NumberType && (v.Int? || v.Float?))
    || (kind == ObjectType && v.Object?) || (kind == ArrayType && v.List?)
  }

  lemma WhenScalarIsAccepted(kind: Type, nullable: bool, v: Value)
    requires kind == StringType || kind == IntegerType || kind == NumberType || kind == BooleanType
    ensures Valid(Scalar(kind, nullable), v) <==> (v.Null? && nullable) || IsA(kind, v)
  {
  }

  /** An anyOf accepts exactly what the projector finds an alternative for. */
  lemma WhenAnyOfAccepts(s: Schema, v: Value)
    requires s.choice.AnyOf? && !s.binary && !v.Null?
    ensures Valid(s, v) <==> FirstValid(s.choice.alternatives, 0, v).Some?
  {
  }

  /** A text from a list is accepted exactly if it is listed. */
  lemma WhenListedTextIsAccepted(values: seq<Value>, v: Value)
    ensures Valid(Scalar(StringType, false).(allowed := Some(values)), v) <==>
            v.Str? && exists i | 0 <= i < |values| :: values[i] == v
  {
  }

  // ---- two schemas of the catalogue ---------------------------------------------------------------

  function Scalar(kind: Type, nullable: bool): Schema {
    Schema(nullable, false, Plain, Some(kind), None, map[], [], Unsaid, AnyItems)
  }

  function Closed(properties: map<string, Schema>, required: seq<string>): Schema {
    Schema(false, false, Plain, Some(ObjectType), None, properties, required, Forbidden, AnyItems)
  }

  function Choose(alternatives: seq<Schema>): Schema {
    Schema(false, false, OneOf(alternatives), None, None, map[], [], Unsaid, AnyItems)
  }

  const TEXT := Scalar(StringType, false)
  const MAYBE_TEXT := Scalar(StringType, true)
  const INTEGER := Scalar(IntegerType, false)

  const TURN_PAYLOAD := Closed(map["turn_id" := TEXT, "user_id" := MAYBE_TEXT, "artifact_id" := MAYBE_TEXT],
                               ["turn_id"])
  const HISTORY_PAYLOAD := Closed(map["turn_id" := TEXT, "session_id" := TEXT, "hermes_submission_id" := TEXT],
                                  ["turn_id", "session_id", "hermes_submission_id"])
  const SEGMENT_PAYLOAD := Closed(map["session_id" := TEXT, "segment_sequence" := INTEGER, "segment_sha256" := TEXT],
                                  ["session_id", "segment_sequence", "segment_sha256"])

  /** The payload of a worker job (recorder_next/http_contract.py:661-667). */
  const WORKER_PAYLOAD := Choose([TURN_PAYLOAD, HISTORY_PAYLOAD, SEGMENT_PAYLOAD])

  lemma WorkerAlternatives(fields: map<string, Value>)
    requires Valid(WORKER_PAYLOAD, Object(fields))
    ensures "turn_id" in fields && "session_id" in fields ==> Valid(HISTORY_PAYLOAD, Object(fields))
    ensures "turn_id" in fields && "session_id" !in fields ==> Valid(TURN_PAYLOAD, Object(fields))
    ensures "turn_id" !in fields ==> Valid(SEGMENT_PAYLOAD, Object(fields))
  {
    var j := OneOfThese(WORKER_PAYLOAD, 3, Object(fields));
    assert j == 0 || j == 1 || j == 2;
    assert "turn_id" in TURN_PAYLOAD.required && "turn_id" in HISTORY_PAYLOAD.required;
    assert "session_id" in HISTORY_PAYLOAD.required && "session_id" in SEGMENT_PAYLOAD.required;
    assert "session_id" !in TURN_PAYLOAD.properties && "turn_id" !in SEGMENT_PAYLOAD.properties;
  }

  predicate TextOrNothing(fields: map<string, Value>, key: string) {
    key in fields ==> fields[key].Str? || fields[key].Null?
  }

  /** A turn payload is one with a turn, perhaps its user and its artifact, and nothing else. */
  lemma WhenTurnPayloadIsAccepted(fields: map<string, Value>)
    ensures Valid(TURN_PAYLOAD, Object(fields)) <==>
            && "turn_id" in fields && fields["turn_id"].Str?
            && TextOrNothing(fields, "user_id") && TextOrNothing(fields, "artifact_id")
            && forall k | k in fields :: k == "turn_id" || k == "user_id" || k == "artifact_id"
  {
    var properties := TURN_PAYLOAD.properties;
    assert properties.Keys == {"turn_id", "user_id", "artifact_id"};
    assert TURN_PAYLOAD.required == ["turn_id"];
    assert HasAll(TURN_PAYLOAD.required, fields) <==> "turn_id" in fields;
    forall k | k in properties && k in fields
      ensures Valid(properties[k], fields[k]) <==> fields[k].Str? || (k != "turn_id" && fields[k].Null?)
    {
      WhenScalarIsAccepted(StringType, k != "turn_id", fields[k]);
      assert properties[k] == if k == "turn_id" then TEXT else MAYBE_TEXT;
    }
    assert Valid(TURN_PAYLOAD, Object(fields)) <==> ValidObject(TURN_PAYLOAD, fields);
  }

  /**
   * An accepted worker payload is returned whole exactly when it does not carry both a turn and a session:
   * a history payload qualifies for the first alternative, which declares neither of its other keys.
   */
  lemma WhenWorkerPayloadSurvives(fields: map<string, Value>)
    requires Valid(WORKER_PAYLOAD, Object(fields))
    ensures Project(WORKER_PAYLOAD, Object(fields)) == Object(fields) <==>
              !("turn_id" in fields && "session_id" in fields)
  {
    WorkerAlternatives(fields);
    WorkersAreFlat();
    WhenChoiceLosesNothing(WORKER_PAYLOAD, fields);
    if "turn_id" in fields {
      TurnIsChosen(fields);
    } else {
      SegmentIsChosen(fields);
    }
  }

  lemma WorkersAreFlat()
    ensures FlatObject(TURN_PAYLOAD) && FlatObject(HISTORY_PAYLOAD) && FlatObject(SEGMENT_PAYLOAD)
  {
  }

  /** Anything with a turn qualifies for the first alternative, which has no session. */
  lemma TurnIsChosen(fields: map<string, Value>)
    requires "turn_id" in fields && ("session_id" !in fields ==> Valid(TURN_PAYLOAD, Object(fields)))
    ensures Chosen(WORKER_PAYLOAD.choice.alternatives, 0, Object(fields)) == 0
    ensures (forall k | k in fields :: k in TURN_PAYLOAD.properties) <==> "session_id" !in fields
  {
    assert HasAll(TURN_PAYLOAD.required, fields);
    assert "session_id" !in TURN_PAYLOAD.properties;
  }

  lemma SegmentIsChosen(fields: map<string, Value>)
    requires "turn_id" !in fields && Valid(SEGMENT_PAYLOAD, Object(fields))
    ensures Chosen(WORKER_PAYLOAD.choice.alternatives, 0, Object(fields)) == 2
    ensures forall k | k in fields :: k in SEGMENT_PAYLOAD.properties
  {
    var alternatives, v := WORKER_PAYLOAD.choice.alternatives, Object(fields);
    assert "turn_id" in TURN_PAYLOAD.required && "turn_id" in HISTORY_PAYLOAD.required;
    assert Chosen(alternatives, 1, v) == Chosen(alternatives, 2, v) == 2;
  }

  lemma MatchesOfThree(s: Schema, v: Value)
    requires !s.choice.Plain? && |s.choice.alternatives| == 3
    ensures var a := s.choice.alternatives;
            Matches(s, 3, v) ==
            (if Valid(a[0], v) then 1 else 0) + (if Valid(a[1], v) then 1 else 0) + (if Valid(a[2], v) then 1 else 0)
  {
    assert Matches(s, 1, v) == if Valid(s.choice.alternatives[0], v) then 1 else 0;
  }

  lemma HistoryFields(fields: map<string, Value>)
    requires fields.Keys == {"turn_id", "session_id", "hermes_submission_id"}
    requires forall k | k in fields :: fields[k].Str?
    ensures Valid(HISTORY_PAYLOAD, Object(fields)) && !Valid(TURN_PAYLOAD, Object(fields))
            && !Valid(SEGMENT_PAYLOAD, Object(fields))
  {
    assert "session_id" in fields && "session_id" !in TURN_PAYLOAD.properties;
    assert "segment_sequence" in SEGMENT_PAYLOAD.required && "segment_sequence" !in fields;
    assert forall k | k in fields :: k in HISTORY_PAYLOAD.properties && HISTORY_PAYLOAD.properties[k] == TEXT;
  }

  /** Every history payload is accepted, and comes back with its turn alone: the session and the submission are lost. */
  lemma HistoryPayloadIsCut(turn: string, session: string, submission: string)
    ensures var v := Object(map["turn_id" := Str(turn), "session_id" := Str(session),
                                "hermes_submission_id" := Str(submission)]);
            Valid(WORKER_PAYLOAD, v) && Project(WORKER_PAYLOAD, v) == Object(map["turn_id" := Str(turn)])
  {
    var fields := map["turn_id" := Str(turn), "session_id" := Str(session), "hermes_submission_id" := Str(submission)];
    HistoryFields(fields);
    MatchesOfThree(WORKER_PAYLOAD, Object(fields));
    assert HasAll(TURN_PAYLOAD.required, fields);
    assert Chosen(WORKER_PAYLOAD.choice.alternatives, 0, Object(fields)) == 0;
    TurnOnly(fields);
  }

  lemma TurnOnly(fields: map<string, Value>)
    requires fields.Keys == {"turn_id", "session_id", "hermes_submission_id"} && fields["turn_id"].Str?
    ensures ProjectFields(TURN_PAYLOAD, fields) == map["turn_id" := fields["turn_id"]]
  {
    assert "session_id" !in TURN_PAYLOAD.properties && "hermes_submission_id" !in TURN_PAYLOAD.properties;
    assert "turn_id" in TURN_PAYLOAD.properties;
    var w := ProjectFields(TURN_PAYLOAD, fields);
    assert w.Keys == {"turn_id"};
  }

  const ACCEPTED_PAYLOAD := Closed(
    map["type" := TEXT, "turn_id" := TEXT, "accepted_seq" := INTEGER, "initial_fingerprint" := TEXT],
    ["type", "turn_id", "accepted_seq", "initial_fingerprint"])
  const ROUTED_PAYLOAD := Closed(
    map["type" := TEXT, "turn_id" := TEXT, "route_decision_id" := TEXT, "project_id" := MAYBE_TEXT,
        "session_key" := MAYBE_TEXT, "project_record_version" := Scalar(IntegerType, true), "text" := MAYBE_TEXT,
        "decision_reason_code" := MAYBE_TEXT],
    ["type", "turn_id", "route_decision_id"])
  const OUTCOME_PAYLOAD := Closed(
    map["type" := TEXT, "turn_id" := TEXT, "event_version" := INTEGER, "text" := MAYBE_TEXT, "outcome" := TEXT,
        "error_kind" := MAYBE_TEXT, "source" := MAYBE_TEXT, "source_ref" := MAYBE_TEXT,
        "recovered_from_error" := Scalar(BooleanType, true)],
    ["type", "turn_id", "event_version", "outcome"])

  /** The payload of an event (recorder_next/http_contract.py:668-674) has no such ambiguity, so it always survives. */
  const EVENT_PAYLOAD := Choose([ACCEPTED_PAYLOAD, ROUTED_PAYLOAD, OUTCOME_PAYLOAD])

  lemma EventPayloadSurvives(v: Value)
    requires Valid(EVENT_PAYLOAD, v)
    ensures Project(EVENT_PAYLOAD, v) == v
  {
    EventPayloadIsFaithful();
    ProjectionIsIdentity(EVENT_PAYLOAD, v);
  }

  lemma AcceptedIsFaithful()
    ensures ClosedObject(ACCEPTED_PAYLOAD) && Faithful(ACCEPTED_PAYLOAD)
  {
    FlatIsFaithful(ACCEPTED_PAYLOAD);
  }

  lemma RoutedIsFaithful()
    ensures ClosedObject(ROUTED_PAYLOAD) && Faithful(ROUTED_PAYLOAD)
  {
    FlatIsFaithful(ROUTED_PAYLOAD);
  }

  lemma OutcomeIsFaithful()
    ensures ClosedObject(OUTCOME_PAYLOAD) && Faithful(OUTCOME_PAYLOAD)
  {
    FlatIsFaithful(OUTCOME_PAYLOAD);
  }

  lemma NoEventShadows()
    ensures !Shadows(ACCEPTED_PAYLOAD, ROUTED_PAYLOAD) && !Shadows(ACCEPTED_PAYLOAD, OUTCOME_PAYLOAD)
    ensures !Shadows(ROUTED_PAYLOAD, OUTCOME_PAYLOAD)
  {
    assert "accepted_seq" in ACCEPTED_PAYLOAD.required && "route_decision_id" in ROUTED_PAYLOAD.required;
  }

  lemma ThreeAlternatives(a: Schema, b: Schema, c: Schema)
    requires ClosedObject(a) && ClosedObject(b) && ClosedObject(c) && Faithful(a) && Faithful(b) && Faithful(c)
    requires !Shadows(a, b) && !Shadows(a, c) && !Shadows(b, c)
    ensures Faithful(Choose([a, b, c]))
  {
    assert Unambiguous([a, b, c]);
  }

  lemma EventPayloadIsFaithful()
    ensures Faithful(EVENT_PAYLOAD)
  {
    AcceptedIsFaithful();
    RoutedIsFaithful();
    OutcomeIsFaithful();
    NoEventShadows();
    ThreeAlternatives(ACCEPTED_PAYLOAD, ROUTED_PAYLOAD, OUTCOME_PAYLOAD);
  }
}
