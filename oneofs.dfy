/** What the oneof emulation of `newProtoOneOfSchema` means. The schemas
    combine `required`, `not`, `anyOf` and `oneOf`, read as in the JSON
    Schema validation vocabulary that OpenAPI 3.0 adopts: `required`
    holds when every listed field is present, `not` when its schema does
    not hold, `anyOf` when at least one branch holds and `oneOf` when
    exactly one does. Under that reading the emulation accepts an object
    exactly when at most one field of the oneof is present. */
module OneOfMeaning {
  import opened Wrappers
  import opened OpenApi
  import opened Descriptors
  import opened Generator
  import opened MessageFacts

  /** Whether an object whose present fields are `present` satisfies `s`,
      as far as `required`, `not`, `anyOf` and `oneOf` go; a branch that
      is only a `$ref` does not hold. */
  predicate Holds(s: Schema, present: set<string>)
    decreases s, 1, 0
  {
    (forall n :: n in s.required ==> n in present)
    && (s.not.Some? && s.not.value.value.Some? ==> !Holds(s.not.value.value.value, present))
    && (|s.anyOf| > 0 ==> CountFrom(s, false, 0, present) >= 1)
    && OneOfsHold(s, present)
  }

  /** The `oneOf` and `allOf` parts of `Holds`: exactly one `oneOf`
      branch and every `allOf` branch hold. */
  predicate OneOfsHold(s: Schema, present: set<string>)
    decreases s, 0, |s.oneOf| + 1
  {
    (|s.oneOf| > 0 ==> CountFrom(s, true, 0, present) == 1)
    && (forall i :: 0 <= i < |s.allOf| && s.allOf[i].value.Some? ==> Holds(s.allOf[i].value.value, present))
  }

  /** The `oneOf` or the `anyOf` branches of `s`. */
  function Branches(s: Schema, inOneOf: bool): seq<SchemaRef> {
    if inOneOf then s.oneOf else s.anyOf
  }

  /** How many of the branches of `s` from `i` on hold. */
  function CountFrom(s: Schema, inOneOf: bool, i: nat, present: set<string>): nat
    requires i <= |Branches(s, inOneOf)|
    decreases s, 0, |Branches(s, inOneOf)| - i
  {
    if i == |Branches(s, inOneOf)| then 0
    else
      var b := Branches(s, inOneOf)[i];
      (if b.value.Some? && Holds(b.value.value, present) then 1 else 0) + CountFrom(s, inOneOf, i + 1, present)
  }

  /** How many of the names from position `i` on are present. */
  function PresentCount(fields: seq<string>, i: nat, present: set<string>): nat
    requires i <= |fields|
    decreases |fields| - i
  {
    if i == |fields| then 0 else (if fields[i] in present then 1 else 0) + PresentCount(fields, i + 1, present)
  }

  /** A schema requiring one field holds exactly when that field is present. */
  lemma RequiringOneField(name: string, present: set<string>)
    ensures Holds(NewSchema().(required := [name]), present) <==> name in present
  {
    var s := NewSchema().(required := [name]);
    assert s.required[0] == name;
  }

  /** The branches of an `anyOf` of `RequireEach(fields)` that hold are the
      present fields. */
  lemma {:induction false} AnyOfRequiresCount(s: Schema, fields: seq<string>, i: nat, present: set<string>)
    requires s.anyOf == Refs(RequireEach(fields)) && i <= |fields|
    ensures CountFrom(s, false, i, present) == PresentCount(fields, i, present)
    decreases |fields| - i
  {
    if i < |fields| {
      RequiringOneField(fields[i], present);
      AnyOfRequiresCount(s, fields, i + 1, present);
    }
  }

  /** After its first branch, the `oneOf` of `ProtoOneOf(fields)` counts
      the present fields. */
  lemma {:induction false} OneOfRequiresCount(s: Schema, fields: seq<string>, i: nat, present: set<string>)
    requires s.oneOf == Refs(ProtoOneOf(fields)) && i <= |fields|
    ensures CountFrom(s, true, i + 1, present) == PresentCount(fields, i, present)
    decreases |fields| - i
  {
    if i < |fields| {
      assert ProtoOneOf(fields)[i + 1] == RequireEach(fields)[i];
      RequiringOneField(fields[i], present);
      OneOfRequiresCount(s, fields, i + 1, present);
    }
  }

  /** The first branch of the emulation holds exactly when no field of the
      oneof is present. */
  lemma NoneOfTheFields(fields: seq<string>, present: set<string>)
    requires |fields| > 0
    ensures Holds(ProtoOneOf(fields)[0], present) <==> PresentCount(fields, 0, present) == 0
  {
    var any := NewAnyOfSchema(RequireEach(fields));
    AnyOfRequiresCount(any, fields, 0, present);
    assert OneOfsHold(any, present);
    var first := ProtoOneOf(fields)[0];
    assert first == NewSchema().(not := Some(NewRef(any)));
    assert OneOfsHold(first, present);
  }

  /** The oneof emulation: a schema whose `oneOf` is `ProtoOneOf(fields)`
      has exactly one branch holding when at most one of the fields is
      present (the first branch when none is, the field's own when one
      is), and none or several otherwise. */
  lemma AtMostOneField(s: Schema, fields: seq<string>, present: set<string>)
    requires |fields| > 0 && s.oneOf == Refs(ProtoOneOf(fields))
    ensures CountFrom(s, true, 0, present) == 1 <==> PresentCount(fields, 0, present) <= 1
  {
    NoneOfTheFields(fields, present);
    OneOfRequiresCount(s, fields, 0, present);
    assert CountFrom(s, true, 0, present)
        == (if Holds(ProtoOneOf(fields)[0], present) then 1 else 0) + CountFrom(s, true, 1, present);
  }

  /** `newProtoOneOfSchema` wrapped in a `oneOf` schema: satisfied exactly
      when at most one field of the oneof is present. */
  lemma OneOfSchemaMeaning(fields: seq<string>, present: set<string>)
    requires |fields| > 0
    ensures Holds(NewOneOfSchema(ProtoOneOf(fields)), present) <==> PresentCount(fields, 0, present) <= 1
  {
    AtMostOneField(NewOneOfSchema(ProtoOneOf(fields)), fields, present);
  }

  /** A oneof index some field carries names at least that field. */
  lemma {:induction false} IndexHasField(m: Message, i: nat, idx: int)
    requires i <= |m.fields| && idx in OneOfIndexesFrom(m, i)
    ensures |OneOfFrom(m, i, idx)| > 0
    decreases |m.fields| - i
  {
    if m.fields[i].oneofIndex != Some(idx) {
      IndexHasField(m, i + 1, idx);
    }
  }

  /** The oneofs of a generated message, whatever their number: the object
      satisfies its `oneOf` and `allOf` exactly when no oneof of the
      message has more than one field present. */
  lemma MessageOneOfsMeaning(cfg: Config, m: Message, o1: Schema, present: set<string>)
    requires cfg.protoOneof && o1.oneOf == [] && o1.allOf == []
    requires FieldsFrom(cfg, m, 0, FieldsState(o1, map[], [])).Ok? && MessageBody(cfg, m, o1).Ok?
    ensures OneOfsHold(MessageBody(cfg, m, o1).value, present)
      <==> forall idx :: idx in OneOfIndexesFrom(m, 0) ==> PresentCount(OneOfFrom(m, 0, idx), 0, present) <= 1
  {
    OneOfPlacement(cfg, m, o1);
    PlacedOneOfsMeaning(m, o1, MessageBody(cfg, m, o1).value, present);
  }

  lemma PlacedOneOfsMeaning(m: Message, o1: Schema, s: Schema, present: set<string>)
    requires o1.oneOf == [] && o1.allOf == [] && PlacedOneOfs(m, o1, s)
    requires forall idx :: idx in OneOfIndexesFrom(m, 0) ==> 0 <= idx < |OneOfIndexesFrom(m, 0)|
    ensures OneOfsHold(s, present)
      <==> forall idx :: idx in OneOfIndexesFrom(m, 0) ==> PresentCount(OneOfFrom(m, 0, idx), 0, present) <= 1
  {
    var idxs := OneOfIndexesFrom(m, 0);
    if |idxs| == 1 {
      DensePositionIsIndex(idxs, 0);
      assert idxs == {0};
      IndexHasField(m, 0, 0);
      AtMostOneField(s, OneOfFrom(m, 0, 0), present);
    } else if |idxs| > 1 {
      ManyOneOfsMeaning(m, s, present);
    } else {
      assert idxs == {};
    }
  }

  lemma ManyOneOfsMeaning(m: Message, s: Schema, present: set<string>)
    requires forall idx :: idx in OneOfIndexesFrom(m, 0) ==> 0 <= idx < |OneOfIndexesFrom(m, 0)|
    requires s.oneOf == [] && |s.allOf| == |OneOfIndexesFrom(m, 0)|
    requires forall j :: 0 <= j < |s.allOf| ==> s.allOf[j] == NewRef(NewOneOfSchema(ProtoOneOf(OneOfFrom(m, 0, j))))
    ensures OneOfsHold(s, present)
      <==> forall idx :: idx in OneOfIndexesFrom(m, 0) ==> PresentCount(OneOfFrom(m, 0, idx), 0, present) <= 1
  {
    var idxs := OneOfIndexesFrom(m, 0);
    forall j | 0 <= j < |idxs|
      ensures Holds(s.allOf[j].value.value, present) <==> PresentCount(OneOfFrom(m, 0, j), 0, present) <= 1
    {
      DensePositionIsIndex(idxs, j);
      IndexHasField(m, 0, j);
      OneOfSchemaMeaning(OneOfFrom(m, 0, j), present);
    }
    if forall idx :: idx in idxs ==> PresentCount(OneOfFrom(m, 0, idx), 0, present) <= 1 {
      forall j | 0 <= j < |s.allOf|
        ensures Holds(s.allOf[j].value.value, present)
      {
        DensePositionIsIndex(idxs, j);
      }
    }
  }

  /** When the indexes are 0 up to their number, each position is one. */
  lemma DensePositionIsIndex(idxs: set<int>, j: int)
    requires (forall idx :: idx in idxs ==> 0 <= idx < |idxs|) && 0 <= j < |idxs|
    ensures j in idxs
  {
    KeysFillPositions(idxs, |idxs|);
  }
}
