/** What `generateMessageSchema` promises about the schema it builds:
    one property per field and nothing else changed, the required list
    in field order, the oneof groups in field order, and the shape of
    the resulting object. */
module MessageFacts {
  import opened Wrappers
  import opened OpenApi
  import opened Constraints
  import opened Registration
  import opened Validation
  import opened Comments
  import opened Descriptors
  import opened Generator

  /** A field that lands in the `required` list: not a proto3 `optional`
      field, and carrying the Required marker. */
  predicate RequiredField(cfg: Config, f: Field) {
    !f.proto3Optional && RequiredScan(cfg.grammar, RulesOf(cfg, f.comment)) == Ok(true)
  }

  /** The property names of the fields from `i` on. */
  function NamesFrom(m: Message, i: nat): set<string>
    requires i <= |m.fields|
    decreases |m.fields| - i
  {
    if i == |m.fields| then {} else {FieldName(m.fields[i])} + NamesFrom(m, i + 1)
  }

  /** The property names of the fields from `i` on are their JSON names. */
  lemma {:induction false} NamesFromAreJsonNames(m: Message, i: nat)
    requires i <= |m.fields|
    ensures NamesFrom(m, i) == set k | i <= k < |m.fields| :: m.fields[k].jsonName
    decreases |m.fields| - i
  {
    if i < |m.fields| {
      NamesFromAreJsonNames(m, i + 1);
      var tail := set k | i + 1 <= k < |m.fields| :: m.fields[k].jsonName;
      assert (set k | i <= k < |m.fields| :: m.fields[k].jsonName) == {m.fields[i].jsonName} + tail;
    }
  }

  /** A message's property names are exactly its fields' JSON names. */
  lemma PropertyNamesAreJsonNames(m: Message)
    ensures NamesFrom(m, 0) == set f | f in m.fields :: f.jsonName
  {
    NamesFromAreJsonNames(m, 0);
    var byIndex := set k | 0 <= k < |m.fields| :: m.fields[k].jsonName;
    forall x | x in byIndex ensures x in set f | f in m.fields :: f.jsonName {
      var k :| 0 <= k < |m.fields| && x == m.fields[k].jsonName;
      assert m.fields[k] in m.fields;
    }
  }

  /** The names of the required fields from `i` on, in field order. */
  function RequiredFrom(cfg: Config, m: Message, i: nat): seq<string>
    requires i <= |m.fields|
    decreases |m.fields| - i
  {
    if i == |m.fields| then []
    else (if RequiredField(cfg, m.fields[i]) then [FieldName(m.fields[i])] else []) + RequiredFrom(cfg, m, i + 1)
  }

  /** The names of the fields from `i` on that belong to oneof `idx`, in
      field order. */
  function OneOfFrom(m: Message, i: nat, idx: int): seq<string>
    requires i <= |m.fields|
    decreases |m.fields| - i
  {
    if i == |m.fields| then []
    else (if m.fields[i].oneofIndex == Some(idx) then [FieldName(m.fields[i])] else []) + OneOfFrom(m, i + 1, idx)
  }

  /** The oneof indexes the fields from `i` on belong to. */
  function OneOfIndexesFrom(m: Message, i: nat): set<int>
    requires i <= |m.fields|
    decreases |m.fields| - i
  {
    if i == |m.fields| then {}
    else (if m.fields[i].oneofIndex.Some? then {m.fields[i].oneofIndex.value} else {}) + OneOfIndexesFrom(m, i + 1)
  }

  /** What one pass of the field loop does: it adds the field's property
      and changes no other part of the object; it appends the name to the
      required list exactly when the field is required, and to the group
      of its oneof. */
  ghost predicate StepEffect(cfg: Config, st: FieldsState, f: Field, r: FieldsState) {
    r.o == st.o.(properties := r.o.properties)
    && r.o.properties.Keys == st.o.properties.Keys + {FieldName(f)}
    && (forall n :: n in st.o.properties && n != FieldName(f) ==> r.o.properties[n] == st.o.properties[n])
    && r.required == st.required + (if RequiredField(cfg, f) then [FieldName(f)] else [])
    && r.oneOfFields.Keys == st.oneOfFields.Keys + (if f.oneofIndex.Some? then {f.oneofIndex.value} else {})
    && (forall idx :: Group(r.oneOfFields, idx) == Group(st.oneOfFields, idx) + (if f.oneofIndex == Some(idx) then [FieldName(f)] else []))
  }

  lemma FieldStepEffect(cfg: Config, st: FieldsState, f: Field)
    requires FieldStep(cfg, st, f).Ok?
    ensures StepEffect(cfg, st, f, FieldStep(cfg, st, f).value)
  {
    FieldStepUnfolded(cfg, st, f);
    var r := FieldStep(cfg, st, f).value;
    StepAlgebra(st, r, FieldName(f), f.oneofIndex, RequiredField(cfg, f));
  }

  /** The bookkeeping of one step, on its own. */
  lemma StepAlgebra(st: FieldsState, r: FieldsState, name: string, index: Option<int>, req: bool)
    requires name in r.o.properties
    requires r.o == st.o.(properties := st.o.properties[name := r.o.properties[name]])
    requires r.required == (if req then st.required + [name] else st.required)
    requires r.oneOfFields == (if index.Some? then st.oneOfFields[index.value := Group(st.oneOfFields, index.value) + [name]]
                               else st.oneOfFields)
    ensures r.o == st.o.(properties := r.o.properties)
      && r.o.properties.Keys == st.o.properties.Keys + {name}
      && (forall n :: n in st.o.properties && n != name ==> r.o.properties[n] == st.o.properties[n])
      && r.required == st.required + (if req then [name] else [])
      && r.oneOfFields.Keys == st.oneOfFields.Keys + (if index.Some? then {index.value} else {})
      && (forall idx :: Group(r.oneOfFields, idx) == Group(st.oneOfFields, idx) + (if index == Some(idx) then [name] else []))
  {
    forall idx
      ensures Group(r.oneOfFields, idx) == Group(st.oneOfFields, idx) + (if index == Some(idx) then [name] else [])
    {
    }
  }

  /** The successful step, written out. */
  lemma FieldStepUnfolded(cfg: Config, st: FieldsState, f: Field)
    requires FieldStep(cfg, st, f).Ok?
    ensures var name := FieldName(f);
      var r := FieldStep(cfg, st, f).value;
      name in r.o.properties
      && r.o == st.o.(properties := st.o.properties[name := r.o.properties[name]])
      && r.required == (if RequiredField(cfg, f) then st.required + [name] else st.required)
      && r.oneOfFields == (if f.oneofIndex.Some? then st.oneOfFields[f.oneofIndex.value := Group(st.oneOfFields, f.oneofIndex.value) + [name]]
                           else st.oneOfFields)
  {
    var rules := RulesOf(cfg, f.comment);
    var req := if f.proto3Optional then Ok(false) else RequiredScan(cfg.grammar, rules);
    var t := SchemaTypeScan(cfg.grammar, rules, DescribesField);
    assert req.Ok? && t.Ok?;
    assert req.value <==> RequiredField(cfg, f);
  }

  /** The property of a field is its schema: the Type marker's when the
      rules hold one, the field type's otherwise. */
  lemma FieldStepProperty(cfg: Config, st: FieldsState, f: Field)
    requires FieldStep(cfg, st, f).Ok?
    ensures var t := SchemaTypeScan(cfg.grammar, RulesOf(cfg, f.comment), DescribesField);
      t.Ok? && PropertySchema(cfg, f, t.value).Ok?
      && FieldStep(cfg, st, f).value.o.properties[FieldName(f)] == NewRef(PropertySchema(cfg, f, t.value).value)
  {
  }

  /** A field fails the loop exactly when its Required, Type or property
      step fails. */
  lemma FieldStepFails(cfg: Config, st: FieldsState, f: Field)
    ensures var rules := RulesOf(cfg, f.comment);
      var t := SchemaTypeScan(cfg.grammar, rules, DescribesField);
      FieldStep(cfg, st, f).Err? <==>
        (!f.proto3Optional && RequiredScan(cfg.grammar, rules).Err?)
        || t.Err? || PropertySchema(cfg, f, t.value).Err?
  {
  }

  /** What the field loop from field `i` on does, when it succeeds: it
      changes only the properties, adding one per field, and the required
      list and the oneof groups grow by the fields' names in field order. */
  ghost predicate LoopEffect(cfg: Config, m: Message, i: nat, st: FieldsState, r: FieldsState)
    requires i <= |m.fields|
  {
    r.o == st.o.(properties := r.o.properties)
    && r.o.properties.Keys == st.o.properties.Keys + NamesFrom(m, i)
    && r.required == st.required + RequiredFrom(cfg, m, i)
    && r.oneOfFields.Keys == st.oneOfFields.Keys + OneOfIndexesFrom(m, i)
    && (forall idx :: Group(r.oneOfFields, idx) == Group(st.oneOfFields, idx) + OneOfFrom(m, i, idx))
  }

  lemma {:induction false} FieldsFromEffect(cfg: Config, m: Message, i: nat, st: FieldsState)
    requires i <= |m.fields| && FieldsFrom(cfg, m, i, st).Ok?
    ensures LoopEffect(cfg, m, i, st, FieldsFrom(cfg, m, i, st).value)
    decreases |m.fields| - i
  {
    if i < |m.fields| {
      var next := FieldsFromStep(cfg, m, i, st);
      FieldsFromEffect(cfg, m, i + 1, next);
    } else {
      FieldsFromDone(cfg, m, i, st);
    }
  }

  /** The loop past the last field leaves the state as it is. */
  lemma FieldsFromDone(cfg: Config, m: Message, i: nat, st: FieldsState)
    requires i == |m.fields| && FieldsFrom(cfg, m, i, st).Ok?
    ensures LoopEffect(cfg, m, i, st, FieldsFrom(cfg, m, i, st).value)
  {
  }

  /** The state after field `i`, from which the loop's effect from `i + 1`
      gives its effect from `i`. */
  lemma FieldsFromStep(cfg: Config, m: Message, i: nat, st: FieldsState) returns (next: FieldsState)
    requires i < |m.fields| && FieldsFrom(cfg, m, i, st).Ok?
    ensures FieldsFrom(cfg, m, i + 1, next).Ok?
    ensures LoopEffect(cfg, m, i + 1, next, FieldsFrom(cfg, m, i + 1, next).value)
      ==> LoopEffect(cfg, m, i, st, FieldsFrom(cfg, m, i, st).value)
  {
    FieldsFromNext(cfg, m, i, st);
    next := FieldStep(cfg, st, m.fields[i]).value;
    FieldStepEffect(cfg, st, m.fields[i]);
    var r := FieldsFrom(cfg, m, i, st).value;
    if LoopEffect(cfg, m, i + 1, next, r) {
      ComposeEffects(cfg, m, i, st, next, r);
    }
  }

  /** A successful loop from `i` is a successful step, then the loop from
      `i + 1`. */
  lemma FieldsFromNext(cfg: Config, m: Message, i: nat, st: FieldsState)
    requires i < |m.fields| && FieldsFrom(cfg, m, i, st).Ok?
    ensures FieldStep(cfg, st, m.fields[i]).Ok?
    ensures FieldsFrom(cfg, m, i, st) == FieldsFrom(cfg, m, i + 1, FieldStep(cfg, st, m.fields[i]).value)
  {
  }

  lemma ComposeEffects(cfg: Config, m: Message, i: nat, st: FieldsState, next: FieldsState, r: FieldsState)
    requires i < |m.fields|
    requires StepEffect(cfg, st, m.fields[i], next) && LoopEffect(cfg, m, i + 1, next, r)
    ensures LoopEffect(cfg, m, i, st, r)
  {
    var f := m.fields[i];
    var name := FieldName(f);
    assert NamesFrom(m, i) == {name} + NamesFrom(m, i + 1);
    assert OneOfIndexesFrom(m, i) == (if f.oneofIndex.Some? then {f.oneofIndex.value} else {}) + OneOfIndexesFrom(m, i + 1);
    assert RequiredFrom(cfg, m, i) == (if RequiredField(cfg, f) then [name] else []) + RequiredFrom(cfg, m, i + 1);
    assert r.required == st.required + RequiredFrom(cfg, m, i) by {
      assert r.required == next.required + RequiredFrom(cfg, m, i + 1);
      assert next.required == st.required + (if RequiredField(cfg, f) then [name] else []);
      AppendAssoc(st.required, if RequiredField(cfg, f) then [name] else [], RequiredFrom(cfg, m, i + 1));
    }
    forall idx
      ensures Group(r.oneOfFields, idx) == Group(st.oneOfFields, idx) + OneOfFrom(m, i, idx)
    {
      var here := if f.oneofIndex == Some(idx) then [name] else [];
      assert OneOfFrom(m, i, idx) == here + OneOfFrom(m, i + 1, idx);
      assert Group(r.oneOfFields, idx) == Group(next.oneOfFields, idx) + OneOfFrom(m, i + 1, idx);
      assert Group(next.oneOfFields, idx) == Group(st.oneOfFields, idx) + here;
      AppendAssoc(Group(st.oneOfFields, idx), here, OneOfFrom(m, i + 1, idx));
    }
  }

  /** The message body: one property per field on top of the schema the
      rules left, the required list when some field is required, and,
      without the oneof emulation, nothing else changed. */
  lemma MessageBodyShape(cfg: Config, m: Message, o1: Schema)
    requires MessageBody(cfg, m, o1).Ok?
    ensures var s := MessageBody(cfg, m, o1).value;
      var req := RequiredFrom(cfg, m, 0);
      s.properties.Keys == o1.properties.Keys + NamesFrom(m, 0)
      && s.required == (if req == [] then o1.required else req)
      && s == o1.(properties := s.properties, required := s.required, oneOf := s.oneOf, allOf := s.allOf)
      && (!cfg.protoOneof ==> s.oneOf == o1.oneOf && s.allOf == o1.allOf)
  {
    var st0 := FieldsState(o1, map[], []);
    FieldsFromEffect(cfg, m, 0, st0);
    FinishShape(cfg, m, o1, FieldsFrom(cfg, m, 0, st0).value);
  }

  lemma FinishShape(cfg: Config, m: Message, o1: Schema, st: FieldsState)
    requires LoopEffect(cfg, m, 0, FieldsState(o1, map[], []), st) && FinishMessage(cfg.protoOneof, st).Ok?
    ensures var s := FinishMessage(cfg.protoOneof, st).value;
      var req := RequiredFrom(cfg, m, 0);
      s.properties.Keys == o1.properties.Keys + NamesFrom(m, 0)
      && s.required == (if req == [] then o1.required else req)
      && s == o1.(properties := s.properties, required := s.required, oneOf := s.oneOf, allOf := s.allOf)
      && (!cfg.protoOneof ==> s.oneOf == o1.oneOf && s.allOf == o1.allOf)
  {
    assert st.required == RequiredFrom(cfg, m, 0);
    WithRequiredShape(o1, st.o, st.required);
    if cfg.protoOneof {
      PlaceOneOfsShape(WithRequired(st.o, st.required), st.oneOfFields);
    }
  }

  /** Setting the required list on an object that differs from `o1` only
      in its properties. */
  lemma WithRequiredShape(o1: Schema, o: Schema, req: seq<string>)
    requires o == o1.(properties := o.properties)
    ensures var o2 := WithRequired(o, req);
      o2 == o1.(properties := o.properties, required := o2.required)
      && o2.required == (if req == [] then o1.required else req)
  {
  }

  /** `PlaceOneOfs` writes only `oneOf` and `allOf`: it fails exactly when
      an index falls outside the slice, and a single oneof becomes
      `oneOf`. */
  lemma PlaceOneOfsShape(o: Schema, groups: map<int, seq<string>>)
    ensures PlaceOneOfs(o, groups).Ok? <==> DenseIndexes(groups)
    ensures PlaceOneOfs(o, groups).Ok? ==>
      var r := PlaceOneOfs(o, groups).value;
      r == o.(oneOf := r.oneOf, allOf := r.allOf)
      && (|groups| == 0 ==> r == o)
      && (|groups| == 1 ==> 0 in groups && r.oneOf == Refs(ProtoOneOf(groups[0])) && r.allOf == o.allOf)
  {
    if DenseIndexes(groups) {
      DenseIffEveryPositionIsKey(groups);
    }
  }

  /** Several oneofs are appended to `allOf` by index, each as a schema
      whose `oneOf` is that oneof's emulation. */
  lemma PlaceManyOneOfs(o: Schema, groups: map<int, seq<string>>)
    requires DenseIndexes(groups) && |groups| > 1
    ensures var r := PlaceOneOfs(o, groups);
      r.Ok? && r.value.oneOf == o.oneOf
      && |r.value.allOf| == |o.allOf| + |groups| && r.value.allOf[..|o.allOf|] == o.allOf
      && forall j :: 0 <= j < |groups| ==> j in groups && r.value.allOf[|o.allOf| + j] == NewRef(NewOneOfSchema(ProtoOneOf(groups[j])))
  {
    DenseIffEveryPositionIsKey(groups);
    var lists := OneOfLists(groups);
    var r := PlaceOneOfs(o, groups).value;
    assert r.allOf == o.allOf + OneOfRefs(lists);
    forall j | 0 <= j < |groups|
      ensures r.allOf[|o.allOf| + j] == NewRef(NewOneOfSchema(ProtoOneOf(groups[j])))
    {
      assert lists[j] == ProtoOneOf(groups[j]);
    }
  }

  /** The oneof emulation: the message fails unless its oneof indexes are
      0 up to their number; one oneof becomes the object's `oneOf`, several
      are appended to its `allOf` in index order, each listing the fields
      of that oneof in field order. */
  lemma OneOfPlacement(cfg: Config, m: Message, o1: Schema)
    requires cfg.protoOneof && FieldsFrom(cfg, m, 0, FieldsState(o1, map[], [])).Ok?
    ensures var idxs := OneOfIndexesFrom(m, 0);
      var r := MessageBody(cfg, m, o1);
      (r.Ok? <==> forall idx :: idx in idxs ==> 0 <= idx < |idxs|)
      && (r.Ok? ==> PlacedOneOfs(m, o1, r.value))
  {
    var st := FieldsFrom(cfg, m, 0, FieldsState(o1, map[], [])).value;
    var o2 := WithRequired(st.o, st.required);
    assert MessageBody(cfg, m, o1) == PlaceOneOfs(o2, st.oneOfFields);
    FieldGroups(cfg, m, o1);
    PlaceGroups(m, o1, o2, st.oneOfFields);
  }

  /** Where the oneofs of `m` sit in the schema `s` built on `o1`. */
  ghost predicate PlacedOneOfs(m: Message, o1: Schema, s: Schema) {
    var idxs := OneOfIndexesFrom(m, 0);
    (|idxs| == 0 ==> s.oneOf == o1.oneOf && s.allOf == o1.allOf)
    && (|idxs| == 1 ==> s.oneOf == Refs(ProtoOneOf(OneOfFrom(m, 0, 0))) && s.allOf == o1.allOf)
    && (|idxs| > 1 ==>
          s.oneOf == o1.oneOf
          && |s.allOf| == |o1.allOf| + |idxs| && s.allOf[..|o1.allOf|] == o1.allOf
          && forall j :: 0 <= j < |idxs| ==> s.allOf[|o1.allOf| + j] == NewRef(NewOneOfSchema(ProtoOneOf(OneOfFrom(m, 0, j)))))
  }

  lemma PlaceGroups(m: Message, o1: Schema, o2: Schema, groups: map<int, seq<string>>)
    requires o2.oneOf == o1.oneOf && o2.allOf == o1.allOf
    requires groups.Keys == OneOfIndexesFrom(m, 0)
    requires forall j :: j in groups ==> groups[j] == OneOfFrom(m, 0, j)
    ensures PlaceOneOfs(o2, groups).Ok? <==> forall idx :: idx in OneOfIndexesFrom(m, 0) ==> 0 <= idx < |OneOfIndexesFrom(m, 0)|
    ensures PlaceOneOfs(o2, groups).Ok? ==> PlacedOneOfs(m, o1, PlaceOneOfs(o2, groups).value)
  {
    PlaceOneOfsShape(o2, groups);
    GroupCount(m, groups);
    if DenseIndexes(groups) {
      var idxs := OneOfIndexesFrom(m, 0);
      if |idxs| == 1 {
        PlaceOneGroup(m, o1, o2, groups);
      } else if |idxs| > 1 {
        PlaceSeveralGroups(m, o1, o2, groups);
      }
    }
  }

  lemma GroupCount(m: Message, groups: map<int, seq<string>>)
    requires groups.Keys == OneOfIndexesFrom(m, 0)
    ensures |groups| == |OneOfIndexesFrom(m, 0)|
  {
    assert |groups| == |groups.Keys|;
  }

  lemma PlaceOneGroup(m: Message, o1: Schema, o2: Schema, groups: map<int, seq<string>>)
    requires o2.oneOf == o1.oneOf && o2.allOf == o1.allOf
    requires groups.Keys == OneOfIndexesFrom(m, 0) && |groups| == 1 && DenseIndexes(groups)
    requires forall j :: j in groups ==> groups[j] == OneOfFrom(m, 0, j)
    ensures PlaceOneOfs(o2, groups).Ok? && PlacedOneOfs(m, o1, PlaceOneOfs(o2, groups).value)
  {
    PlaceOneOfsShape(o2, groups);
  }

  lemma PlaceSeveralGroups(m: Message, o1: Schema, o2: Schema, groups: map<int, seq<string>>)
    requires o2.oneOf == o1.oneOf && o2.allOf == o1.allOf
    requires groups.Keys == OneOfIndexesFrom(m, 0) && |groups| > 1 && DenseIndexes(groups)
    requires forall j :: j in groups ==> groups[j] == OneOfFrom(m, 0, j)
    ensures PlaceOneOfs(o2, groups).Ok? && PlacedOneOfs(m, o1, PlaceOneOfs(o2, groups).value)
  {
    PlaceManyOneOfs(o2, groups);
    var r := PlaceOneOfs(o2, groups).value;
    forall j | 0 <= j < |groups|
      ensures r.allOf[|o1.allOf| + j] == NewRef(NewOneOfSchema(ProtoOneOf(OneOfFrom(m, 0, j))))
    {
      assert j in groups;
    }
  }

  /** The oneof groups the field loop collects, by index, and the
      combinators it leaves alone. */
  lemma FieldGroups(cfg: Config, m: Message, o1: Schema)
    requires FieldsFrom(cfg, m, 0, FieldsState(o1, map[], [])).Ok?
    ensures var st := FieldsFrom(cfg, m, 0, FieldsState(o1, map[], [])).value;
      st.oneOfFields.Keys == OneOfIndexesFrom(m, 0)
      && (forall j :: j in st.oneOfFields ==> st.oneOfFields[j] == OneOfFrom(m, 0, j))
      && WithRequired(st.o, st.required).oneOf == o1.oneOf && WithRequired(st.o, st.required).allOf == o1.allOf
  {
    FieldsFromEffect(cfg, m, 0, FieldsState(o1, map[], []));
    LoopGroups(cfg, m, o1, FieldsFrom(cfg, m, 0, FieldsState(o1, map[], [])).value);
  }

  lemma LoopGroups(cfg: Config, m: Message, o1: Schema, st: FieldsState)
    requires LoopEffect(cfg, m, 0, FieldsState(o1, map[], []), st)
    ensures st.oneOfFields.Keys == OneOfIndexesFrom(m, 0)
    ensures forall j :: j in st.oneOfFields ==> st.oneOfFields[j] == OneOfFrom(m, 0, j)
  {
    forall j | j in st.oneOfFields
      ensures st.oneOfFields[j] == OneOfFrom(m, 0, j)
    {
      assert Group(st.oneOfFields, j) == Group(map[], j) + OneOfFrom(m, 0, j);
    }
  }

  /** The schema of a message that is not a map entry: exactly one
      property per field name, the required fields in field order, no
      nested item, value, `anyOf` or `not` schema, and without the oneof
      emulation no `oneOf` or `allOf`; with kube markers disabled it is an
      object with the message's description. */
  lemma MessageSchemaShape(cfg: Config, m: Message)
    requires !m.mapEntry && MessageSchema(cfg, m).Ok?
    ensures MessageSchema(cfg, m).value.Some?
    ensures BareObjectShape(cfg, m, MessageSchema(cfg, m).value.value)
    ensures cfg.disableKubeMarkers ==>
      MessageSchema(cfg, m).value.value.typ == "object" && MessageSchema(cfg, m).value.value.description == Describe(cfg, m.comment)
  {
    var base := MessageBase(cfg, m);
    var o1 := MustApply(cfg, RulesOf(cfg, m.comment), DescribesType, base).value;
    MessageRulesKeepEmptyStructure(cfg, m);
    assert MessageSchema(cfg, m) == Ok(Some(MessageBody(cfg, m, o1).value));
    BodyOnBareObject(cfg, m, o1);
  }

  /** The shape `MessageSchemaShape` promises. */
  ghost predicate BareObjectShape(cfg: Config, m: Message, s: Schema) {
    s.properties.Keys == NamesFrom(m, 0) && s.required == RequiredFrom(cfg, m, 0)
    && s.items == None && s.additionalProperties == None && s.anyOf == [] && s.not == None
    && (!cfg.protoOneof ==> s.oneOf == [] && s.allOf == [])
  }

  /** The message rules leave the base object without structure; with kube
      markers disabled they leave it alone. */
  lemma MessageRulesKeepEmptyStructure(cfg: Config, m: Message)
    ensures var r := MustApply(cfg, RulesOf(cfg, m.comment), DescribesType, MessageBase(cfg, m));
      r.Ok? ==> (Structure(r.value) == Structure(NewSchema())
                 && (cfg.disableKubeMarkers ==> r.value == MessageBase(cfg, m)))
  {
    if !cfg.disableKubeMarkers {
      RulesKeepEmptyStructure(cfg.grammar, RulesOf(cfg, m.comment), DescribesType, MessageBase(cfg, m));
    }
  }

  lemma BodyOnBareObject(cfg: Config, m: Message, o1: Schema)
    requires Structure(o1) == Structure(NewSchema()) && MessageBody(cfg, m, o1).Ok?
    ensures BareObjectShape(cfg, m, MessageBody(cfg, m, o1).value)
    ensures var s := MessageBody(cfg, m, o1).value; s.typ == o1.typ && s.description == o1.description
  {
    MessageBodyShape(cfg, m, o1);
  }
}
