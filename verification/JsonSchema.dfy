/** The JSON-schema subset tools declare their inputs and outputs in: validation, and normalization of tool outputs. */
module JsonSchema {
  import opened Prelude

  datatype Json =
    | Null | Bool(b: bool) | Int(i: int) | Float(r: real) | Str(s: string)
    | Arr(items: seq<Json>) | Obj(fields: map<string, Json>)

  /** A schema that passed the schema check. */
  datatype Schema =
    | AnObject(properties: map<string, Schema>, required: seq<string>, closed: bool)
    | AnArray(item: Option<Schema>)
    | AString(minLength: Option<int>)
    | AnInteger | ANumber | ABoolean | ANull

  predicate Validates(s: Schema, v: Json) {
    match s
    case AnObject(properties, required, closed) =>
      && v.Obj?
      && (forall k | k in required :: k in v.fields)
      && (closed ==> forall k | k in v.fields :: k in properties)
      && (forall k | k in properties :: k in v.fields ==> Validates(properties[k], v.fields[k]))
    case AnArray(item) => v.Arr? && (item.Some? ==> forall i | 0 <= i < |v.items| :: Validates(item.value, v.items[i]))
    case AString(minLength) => v.Str? && (minLength.Some? ==> |v.s| >= minLength.value)
    case AnInteger => v.Int?
    case ANumber => v.Int? || v.Float?
    case ABoolean => v.Bool?
    case ANull => v.Null?
  }

  function Checked(s: Schema, v: Json): Option<Json> {
    if Validates(s, v) then Some(v) else None
  }

  /** The listed properties that are present, normalized; the others are dropped. */
  function NormalizedFields(s: Schema, v: Json): map<string, Json>
    requires s.AnObject? && v.Obj?
    requires forall k :: k in s.properties && k in v.fields ==> Normalize(s.properties[k], v.fields[k]).Some?
    decreases s, v, 0
  {
    map k | k in s.properties && k in v.fields :: Normalize(s.properties[k], v.fields[k]).value
  }

  function NormalizedItems(s: Schema, v: Json): seq<Json>
    requires s.AnArray? && s.item.Some? && v.Arr?
    requires forall i :: 0 <= i < |v.items| ==> Normalize(s.item.value, v.items[i]).Some?
    decreases s, v, 0
  {
    seq(|v.items|, i requires 0 <= i < |v.items| => Normalize(s.item.value, v.items[i]).value)
  }

  function Normalize(s: Schema, v: Json): Option<Json>
    decreases s, v, 1
  {
    if s.AnObject? && v.Obj? then
      if s.properties == map[] && !s.closed then Checked(s, v)
      else if exists k | k in s.properties :: k in v.fields && Normalize(s.properties[k], v.fields[k]) == None then None
      else Checked(s, Obj(NormalizedFields(s, v)))
    else if s.AnArray? && s.item.Some? && v.Arr? then
      if exists i | 0 <= i < |v.items| :: Normalize(s.item.value, v.items[i]) == None then None
      else Checked(s, Arr(NormalizedItems(s, v)))
    else Checked(s, v)
  }
}
