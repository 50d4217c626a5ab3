/** Normalization yields validating values and is idempotent; when it never refuses a validating value; and when it
    leaves every validating value alone. */
module JsonSchemaLaws {
  import opened Prelude
  import opened JsonSchema

  lemma NormalizedValidates(s: Schema, v: Json)
    requires Normalize(s, v).Some?
    ensures Validates(s, Normalize(s, v).value)
  {
  }

  /** A normalized object keeps exactly the listed properties, each normalized. */
  lemma FieldsOfNormalized(s: Schema, v: Json, k: string)
    requires s.AnObject? && v.Obj? && !(s.properties == map[] && !s.closed) && Normalize(s, v).Some?
    ensures var w := Normalize(s, v).value;
      && w.Obj?
      && (k in w.fields <==> k in s.properties && k in v.fields)
      && (k in w.fields ==> Normalize(s.properties[k], v.fields[k]) == Some(w.fields[k]))
  {
  }

  lemma UnlistedRequirementRefuses(s: Schema, v: Json, k: string)
    requires s.AnObject? && v.Obj? && !(s.properties == map[] && !s.closed) && k in s.required && k !in s.properties
    ensures Normalize(s, v) == None
  {
  }

  /** What was normalized once normalizes to itself. */
  lemma {:induction false} NormalizeIsIdempotent(s: Schema, v: Json)
    requires Normalize(s, v).Some?
    ensures Normalize(s, Normalize(s, v).value) == Normalize(s, v)
    decreases s, v
  {
    var w := Normalize(s, v).value;
    if s.AnObject? && v.Obj? {
      if !(s.properties == map[] && !s.closed) {
        forall k | k in s.properties && k in w.fields
          ensures Normalize(s.properties[k], w.fields[k]) == Some(w.fields[k])
        {
          NormalizeIsIdempotent(s.properties[k], v.fields[k]);
        }
        assert NormalizedFields(s, w) == w.fields;
      }
    } else if s.AnArray? && s.item.Some? && v.Arr? {
      forall i | 0 <= i < |w.items| ensures Normalize(s.item.value, w.items[i]) == Some(w.items[i]) {
        NormalizeIsIdempotent(s.item.value, v.items[i]);
      }
      assert NormalizedItems(s, w) == w.items;
    }
  }

  // ----- values a schema admits

  /** Some value validates: a closed object must list what it requires, and required properties must be satisfiable. */
  predicate Satisfiable(s: Schema) {
    s.AnObject? ==>
      && (s.closed ==> forall k | k in s.required :: k in s.properties)
      && (forall k | k in s.properties :: k in s.required ==> Satisfiable(s.properties[k]))
  }

  function Letters(n: int): (s: string)
    ensures |s| == if n > 0 then n else 0
  {
    if n <= 0 then "" else Letters(n - 1) + "a"
  }

  function Witness(s: Schema): Json
    requires Satisfiable(s)
  {
    match s
    case AnObject(properties, required, _) =>
      Obj(map k | k in required :: if k in properties then Witness(properties[k]) else Null)
    case AnArray(_) => Arr([])
    case AString(minLength) => Str(if minLength.Some? then Letters(minLength.value) else "")
    case AnInteger => Int(0)
    case ANumber => Int(0)
    case ABoolean => Bool(false)
    case ANull => Null
  }

  lemma {:induction false} WitnessValidates(s: Schema)
    requires Satisfiable(s)
    ensures Validates(s, Witness(s))
  {
    if s.AnObject? {
      forall k | k in s.properties && k in s.required ensures Validates(s.properties[k], Witness(s.properties[k])) {
        WitnessValidates(s.properties[k]);
      }
    }
  }

  lemma {:induction false} ValidatingIsSatisfiable(s: Schema, v: Json)
    requires Validates(s, v)
    ensures Satisfiable(s)
  {
    if s.AnObject? {
      forall k | k in s.properties && k in s.required ensures Satisfiable(s.properties[k]) {
        ValidatingIsSatisfiable(s.properties[k], v.fields[k]);
      }
    }
  }

  // ----- when normalization never refuses a validating value

  /** Hereditarily, an object lists every property it requires, unless it lists none and is open or admits no value. */
  predicate Coherent(s: Schema) {
    match s
    case AnObject(properties, required, closed) =>
      || !Satisfiable(s)
      || (properties == map[] && !closed)
      || ((forall k | k in required :: k in properties) && (forall k | k in properties :: Coherent(properties[k])))
    case AnArray(item) => item.Some? ==> Coherent(item.value)
    case _ => true
  }

  lemma {:induction false} CoherentNormalizes(s: Schema, v: Json)
    requires Coherent(s) && Validates(s, v)
    ensures Normalize(s, v).Some?
  {
    ValidatingIsSatisfiable(s, v);
    if s.AnObject? && !(s.properties == map[] && !s.closed) {
      forall k | k in s.properties && k in v.fields
        ensures Normalize(s.properties[k], v.fields[k]).Some? && Validates(s.properties[k], Normalize(s.properties[k], v.fields[k]).value)
      {
        CoherentNormalizes(s.properties[k], v.fields[k]);
        NormalizedValidates(s.properties[k], v.fields[k]);
      }
    } else if s.AnArray? && s.item.Some? {
      forall i | 0 <= i < |v.items|
        ensures Normalize(s.item.value, v.items[i]).Some? && Validates(s.item.value, Normalize(s.item.value, v.items[i]).value)
      {
        CoherentNormalizes(s.item.value, v.items[i]);
        NormalizedValidates(s.item.value, v.items[i]);
      }
    }
  }

  /** The witness with one more property set. */
  lemma WitnessWith(s: Schema, k: string, v: Json)
    requires s.AnObject? && Satisfiable(s) && k in s.properties && Validates(s.properties[k], v)
    ensures Validates(s, Obj(Witness(s).fields[k := v]))
  {
    WitnessValidates(s);
  }

  /** A validating value that is refused, for a schema that is not coherent. */
  lemma {:induction false} IncoherentRefuses(s: Schema) returns (v: Json)
    requires !Coherent(s)
    ensures Validates(s, v) && Normalize(s, v) == None
  {
    if s.AnArray? {
      var inner := IncoherentRefuses(s.item.value);
      v := Arr([inner]);
      assert v.items[0] == inner;
    } else if k :| k in s.properties && !Coherent(s.properties[k]) {
      var inner := IncoherentRefuses(s.properties[k]);
      WitnessWith(s, k, inner);
      v := Obj(Witness(s).fields[k := inner]);
      assert v.fields[k] == inner;
    } else {
      var r :| r in s.required && r !in s.properties;
      WitnessValidates(s);
      v := Witness(s);
      UnlistedRequirementRefuses(s, v, r);
    }
  }

  /** Normalization succeeds on every validating value exactly for coherent schemas. */
  lemma NormalizeAcceptsAllIff(s: Schema)
    ensures (forall v :: Validates(s, v) ==> Normalize(s, v).Some?) <==> Coherent(s)
  {
    if Coherent(s) {
      forall v | Validates(s, v) ensures Normalize(s, v).Some? { CoherentNormalizes(s, v); }
    } else {
      var v := IncoherentRefuses(s);
    }
  }

  // ----- when normalization changes no validating value

  /** Hereditarily, an object is closed, unless it lists no properties or admits no value. */
  predicate Sealed(s: Schema) {
    match s
    case AnObject(properties, _, closed) =>
      || !Satisfiable(s)
      || (properties == map[] && !closed)
      || (closed && forall k | k in properties :: Sealed(properties[k]))
    case AnArray(item) => item.Some? ==> Sealed(item.value)
    case _ => true
  }

  lemma {:induction false} SealedIsIdentity(s: Schema, v: Json)
    requires Sealed(s) && Validates(s, v)
    ensures Normalize(s, v) == Some(v)
  {
    ValidatingIsSatisfiable(s, v);
    if s.AnObject? && !(s.properties == map[] && !s.closed) {
      forall k | k in s.properties && k in v.fields ensures Normalize(s.properties[k], v.fields[k]) == Some(v.fields[k]) {
        SealedIsIdentity(s.properties[k], v.fields[k]);
      }
      assert NormalizedFields(s, v) == v.fields;
    } else if s.AnArray? && s.item.Some? {
      forall i | 0 <= i < |v.items| ensures Normalize(s.item.value, v.items[i]) == Some(v.items[i]) {
        SealedIsIdentity(s.item.value, v.items[i]);
      }
      assert NormalizedItems(s, v) == v.items;
    }
  }

  /** A key no property of the schema has. */
  lemma FreshKey(s: Schema) returns (k: string)
    requires s.AnObject?
    ensures k !in s.properties && k !in s.required
  {
    var used := s.properties.Keys + (set r | r in s.required);
    var n := LongestOf(used);
    k := Letters(n + 1);
  }

  lemma LongestOf(names: set<string>) returns (n: nat)
    ensures forall x :: x in names ==> |x| <= n
  {
    n := 0;
    var rest := names;
    while rest != {}
      invariant rest <= names
      invariant forall x :: x in names - rest ==> |x| <= n
      decreases rest
    {
      var x :| x in rest;
      rest := rest - {x};
      if |x| > n { n := |x|; }
    }
  }

  lemma {:induction false} UnsealedChanges(s: Schema) returns (v: Json)
    requires !Sealed(s)
    ensures Validates(s, v) && Normalize(s, v) != Some(v)
  {
    if s.AnArray? {
      var inner := UnsealedChanges(s.item.value);
      v := Arr([inner]);
      assert v.items[0] == inner;
    } else if !s.closed {
      var k := FreshKey(s);
      WitnessValidates(s);
      v := Obj(Witness(s).fields[k := Null]);
      if Normalize(s, v).Some? { FieldsOfNormalized(s, v, k); }
    } else {
      var k :| k in s.properties && !Sealed(s.properties[k]);
      var inner := UnsealedChanges(s.properties[k]);
      WitnessWith(s, k, inner);
      v := Obj(Witness(s).fields[k := inner]);
      assert v.fields[k] == inner;
      if Normalize(s, v).Some? { FieldsOfNormalized(s, v, k); }
    }
  }

  /** Normalization is the identity on every validating value exactly for sealed schemas. */
  lemma NormalizeIsIdentityIff(s: Schema)
    ensures (forall v :: Validates(s, v) ==> Normalize(s, v) == Some(v)) <==> Sealed(s)
  {
    if Sealed(s) {
      forall v | Validates(s, v) ensures Normalize(s, v) == Some(v) { SealedIsIdentity(s, v); }
    } else {
      var v := UnsealedChanges(s);
    }
  }

  // ----- exactly what normalization returns

  /** w is v with, hereditarily, only the listed properties of objects kept; objects of an open schema that lists none are
      kept whole. */
  ghost predicate Projects(s: Schema, v: Json, w: Json)
    decreases s, v
  {
    if s.AnObject? && v.Obj? && !(s.properties == map[] && !s.closed) then
      && w.Obj? && w.fields.Keys == v.fields.Keys * s.properties.Keys
      && forall k :: k in v.fields && k in s.properties ==> Projects(s.properties[k], v.fields[k], w.fields[k])
    else if s.AnArray? && s.item.Some? && v.Arr? then
      && w.Arr? && |w.items| == |v.items|
      && forall i :: 0 <= i < |v.items| ==> Projects(s.item.value, v.items[i], w.items[i])
    else w == v
  }

  ghost predicate FieldsNormalize(s: Schema, v: Json)
    requires s.AnObject? && v.Obj?
  {
    forall k, x :: k in v.fields && k in s.properties ==>
      (Normalize(s.properties[k], v.fields[k]) == Some(x) <==> Projects(s.properties[k], v.fields[k], x) && Validates(s.properties[k], x))
  }

  lemma ProjectedFields(s: Schema, v: Json, w: Json)
    requires s.AnObject? && v.Obj? && !(s.properties == map[] && !s.closed) && FieldsNormalize(s, v)
    requires Projects(s, v, w) && Validates(s, w)
    ensures Normalize(s, v) == Some(w)
  {
    forall k | k in v.fields && k in s.properties ensures Normalize(s.properties[k], v.fields[k]) == Some(w.fields[k]) {}
    assert NormalizedFields(s, v) == w.fields;
  }

  lemma NormalizedFieldsProject(s: Schema, v: Json, w: Json)
    requires s.AnObject? && v.Obj? && !(s.properties == map[] && !s.closed) && FieldsNormalize(s, v)
    requires Normalize(s, v) == Some(w)
    ensures Projects(s, v, w) && Validates(s, w)
  {
    assert w == Obj(NormalizedFields(s, v));
    forall k | k in v.fields && k in s.properties ensures Projects(s.properties[k], v.fields[k], w.fields[k]) {
      assert Normalize(s.properties[k], v.fields[k]) == Some(w.fields[k]);
    }
  }

  lemma ObjectNormalizes(s: Schema, v: Json, w: Json)
    requires s.AnObject? && v.Obj? && !(s.properties == map[] && !s.closed) && FieldsNormalize(s, v)
    ensures Normalize(s, v) == Some(w) <==> Projects(s, v, w) && Validates(s, w)
  {
    if Normalize(s, v) == Some(w) { NormalizedFieldsProject(s, v, w); }
    if Projects(s, v, w) && Validates(s, w) { ProjectedFields(s, v, w); }
  }

  ghost predicate ItemsNormalize(item: Schema, vs: seq<Json>) {
    forall i, x :: 0 <= i < |vs| ==> (Normalize(item, vs[i]) == Some(x) <==> Projects(item, vs[i], x) && Validates(item, x))
  }

  lemma ProjectedItems(s: Schema, v: Json, w: Json)
    requires s.AnArray? && s.item.Some? && v.Arr? && ItemsNormalize(s.item.value, v.items)
    requires Projects(s, v, w) && Validates(s, w)
    ensures Normalize(s, v) == Some(w)
  {
    forall i | 0 <= i < |v.items| ensures Normalize(s.item.value, v.items[i]) == Some(w.items[i]) {}
    assert NormalizedItems(s, v) == w.items;
  }

  lemma NormalizedProjects(s: Schema, v: Json, w: Json)
    requires s.AnArray? && s.item.Some? && v.Arr? && ItemsNormalize(s.item.value, v.items)
    requires Normalize(s, v) == Some(w)
    ensures Projects(s, v, w) && Validates(s, w)
  {
    assert w == Arr(NormalizedItems(s, v));
    forall i | 0 <= i < |v.items| ensures Projects(s.item.value, v.items[i], w.items[i]) {
      assert Normalize(s.item.value, v.items[i]) == Some(w.items[i]);
    }
  }

  lemma ArrayNormalizes(s: Schema, v: Json, w: Json)
    requires s.AnArray? && s.item.Some? && v.Arr? && ItemsNormalize(s.item.value, v.items)
    ensures Normalize(s, v) == Some(w) <==> Projects(s, v, w) && Validates(s, w)
  {
    if Normalize(s, v) == Some(w) { NormalizedProjects(s, v, w); }
    if Projects(s, v, w) && Validates(s, w) { ProjectedItems(s, v, w); }
  }

  /** Normalizing is projecting and then validating: the checks made on the way, at every level, neither refuse nor accept
      anything else than the one check of the result. */
  lemma {:induction false} NormalizeIff(s: Schema, v: Json, w: Json)
    ensures Normalize(s, v) == Some(w) <==> Projects(s, v, w) && Validates(s, w)
    decreases s, v
  {
    if s.AnObject? && v.Obj? && !(s.properties == map[] && !s.closed) {
      forall k, x | k in v.fields && k in s.properties
        ensures Normalize(s.properties[k], v.fields[k]) == Some(x) <==>
          Projects(s.properties[k], v.fields[k], x) && Validates(s.properties[k], x)
      {
        NormalizeIff(s.properties[k], v.fields[k], x);
      }
      ObjectNormalizes(s, v, w);
    } else if s.AnArray? && s.item.Some? && v.Arr? {
      forall i, x | 0 <= i < |v.items|
        ensures Normalize(s.item.value, v.items[i]) == Some(x) <==> Projects(s.item.value, v.items[i], x) && Validates(s.item.value, x)
      {
        NormalizeIff(s.item.value, v.items[i], x);
      }
      ArrayNormalizes(s, v, w);
    }
  }
}
