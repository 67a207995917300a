/**
 * The response validator and projector (recorder_next/http_contract.py:888-1038), over schemas that are
 * finite trees. A schema keeps every keyword the code looks at, and the code's order of looking is kept.
 */
module Schemas {
  import opened Wrappers

  datatype Value =
    | Null
    | Bool(b: bool)
    | Int(n: int)
    | Float(x: real)
    | Str(s: string)
    | Binary(id: nat)
    | List(items: seq<Value>)
    | Object(fields: map<string, Value>)

  datatype Type = ObjectType | ArrayType | StringType | IntegerType | NumberType | BooleanType | OtherType

  /** The additionalProperties keyword: missing, false, true, or a schema. */
  datatype Additional = Unsaid | Forbidden | Allowed | Each(schema: Schema)

  /** The items keyword. */
  datatype Items = AnyItems | ItemsOf(item: Schema)

  /** oneOf is looked at before anyOf. */
  datatype Choice = Plain | OneOf(alternatives: seq<Schema>) | AnyOf(alternatives: seq<Schema>)

  datatype Schema = Schema(
    nullable: bool,
    binary: bool,
    choice: Choice,
    kind: Option<Type>,
    allowed: Option<seq<Value>>,
    properties: map<string, Schema>,
    required: seq<string>,
    additional: Additional,
    items: Items)

  predicate TypeMatches(t: Type, v: Value) {
    match t
    case ObjectType => v.Object?
    case ArrayType => v.List?
    case StringType => v.Str?
    case IntegerType => v.Int?
    case NumberType => v.Int? || v.Float?
    case BooleanType => v.Bool?
    case OtherType => true
  }

  predicate HasAll(names: seq<string>, fields: map<string, Value>) {
    forall n | n in names :: n in fields
  }

  // ---- the validator ------------------------------------------------------------------------

  /** How many of the first n alternatives accept the value. */
  function Matches(s: Schema, n: nat, v: Value): nat
    requires !s.choice.Plain? && n <= |s.choice.alternatives|
    decreases s, n
  {
    if n == 0 then 0
    else Matches(s, n - 1, v) + if Valid(s.choice.alternatives[n - 1], v) then 1 else 0
  }

  predicate Valid(s: Schema, v: Value)
    decreases s, if s.choice.Plain? then 1 else |s.choice.alternatives| + 1
  {
    if v.Null? then s.nullable
    else if s.binary then v.Binary?
    else if s.choice.OneOf? then Matches(s, |s.choice.alternatives|, v) == 1
    else if s.choice.AnyOf? then exists i | 0 <= i < |s.choice.alternatives| :: Valid(s.choice.alternatives[i], v)
    else
      && (s.kind.Some? ==> TypeMatches(s.kind.value, v))
      && (s.allowed.Some? ==> v in s.allowed.value)
      && (s.kind == Some(ObjectType) ==> ValidObject(s, v.fields))
      && (s.kind == Some(ArrayType) && s.items.ItemsOf? ==>
            forall i | 0 <= i < |v.items| :: Valid(s.items.item, v.items[i]))
  }

  predicate ValidObject(s: Schema, fields: map<string, Value>)
    decreases s, 0
  {
    && (s.additional.Forbidden? ==> forall k | k in fields :: k in s.properties)
    && HasAll(s.required, fields)
    && (forall k | k in s.properties && k in fields :: Valid(s.properties[k], fields[k]))
    && (s.additional.Each? ==> forall k | k in fields && k !in s.properties :: Valid(s.additional.schema, fields[k]))
  }

  // ---- the projector ------------------------------------------------------------------------

  /** The first of the alternatives from i on whose required names are all there; else the first of all. */
  function Chosen(alternatives: seq<Schema>, i: nat, v: Value): (c: nat)
    requires i <= |alternatives| && alternatives != []
    ensures c < |alternatives|
    decreases |alternatives| - i
  {
    if i == |alternatives| || !v.Object? then 0
    else if HasAll(alternatives[i].required, v.fields) then i
    else Chosen(alternatives, i + 1, v)
  }

  /** The first alternative that accepts the value. */
  function FirstValid(alternatives: seq<Schema>, i: nat, v: Value): (c: Option<nat>)
    requires i <= |alternatives|
    ensures c.Some? ==> i <= c.value < |alternatives| && Valid(alternatives[c.value], v)
    ensures c.None? ==> forall j | i <= j < |alternatives| :: !Valid(alternatives[j], v)
    decreases |alternatives| - i
  {
    if i == |alternatives| then None
    else if Valid(alternatives[i], v) then Some(i)
    else FirstValid(alternatives, i + 1, v)
  }

  function Project(s: Schema, v: Value): Value
    decreases s, 1
  {
    if v.Null? then Null
    else if s.choice.OneOf? && s.choice.alternatives != [] then
      Project(s.choice.alternatives[Chosen(s.choice.alternatives, 0, v)], v)
    else if s.choice.AnyOf? then
      var c := FirstValid(s.choice.alternatives, 0, v);
      if c.Some? then Project(s.choice.alternatives[c.value], v) else v
    else if s.kind == Some(ObjectType) && v.Object? then Object(ProjectFields(s, v.fields))
    else if s.kind == Some(ArrayType) && v.List? && s.items.ItemsOf? then
      List(seq(|v.items|, i requires 0 <= i < |v.items| => Project(s.items.item, v.items[i])))
    else v
  }

  function ProjectFields(s: Schema, fields: map<string, Value>): map<string, Value>
    decreases s, 0
  {
    map k | k in fields && (k in s.properties || s.additional.Allowed? || s.additional.Each?) ::
      if k in s.properties then Project(s.properties[k], fields[k])
      else if s.additional.Each? then Project(s.additional.schema, fields[k])
      else fields[k]
  }
}
