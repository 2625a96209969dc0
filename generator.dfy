/** The schema generator of openapiGenerator.go: the fixed schemas of the
    special types, the schema of a message, of a field and of an enum,
    and the oneof emulation. Each operation is a pure function computing
    what the Go code builds (a panic is an `Err`), and the imperative
    operations are methods over `SchemaObject`s proved equal to it. */
module Generator {
  import opened Wrappers
  import opened GoStrings
  import opened OpenApi
  import opened Constraints
  import opened Registration
  import opened Validation
  import opened Comments
  import opened Descriptors

  /** The generator state the schema functions read: the options, the
      custom schemas by absolute message name, the names (relative to
      the current package) of the messages being generated, the current
      package and the marker grammar. */
  datatype Config = Config(
    descriptions: DescriptionConfig,
    enumAsIntOrString: bool,
    customSchemas: map<string, Schema>,
    protoOneof: bool,
    intNative: bool,
    disableKubeMarkers: bool,
    ignored: seq<string>,
    useRef: bool,
    messages: set<string>,
    currentPackage: string,
    grammar: Grammar)

  /** `generateDescription` of a descriptor with this leading comment. */
  function Describe(cfg: Config, comment: string): string {
    GenerateDescription(cfg.descriptions, cfg.ignored, comment)
  }

  /** `validationRules`: the kubebuilder directives of the comment. */
  function RulesOf(cfg: Config, comment: string): seq<string> {
    CommentRules(comment, cfg.ignored)
  }

  /** `mustApplyRulesToSchema`: nothing when kube markers are disabled,
      otherwise the registry's rule run, any failure being a panic. */
  function MustApply(cfg: Config, rules: seq<string>, target: Target, s: Schema): (r: Result<Schema>)
    ensures cfg.disableKubeMarkers ==> r == Ok(s)
    ensures !cfg.disableKubeMarkers ==>
      (r.Ok? <==> ApplyRules(cfg.grammar, rules, target, s).1.Success?)
      && (r.Ok? ==> r.value == ApplyRules(cfg.grammar, rules, target, s).0)
  {
    if cfg.disableKubeMarkers then Ok(s)
    else
      var (s', st) := ApplyRules(cfg.grammar, rules, target, s);
      if st.Success? then Ok(s') else Err(MustStatus(st).message)
  }

  // ---------------------------------------------------------------------
  // Fixed schemas.

  /** An extension map holding the single flag `key: true`. */
  function FlagOnly(key: string): Option<map<string, Extension>> {
    Some(map[key := Flag(true)])
  }

  /** The object schema that accepts and keeps any field. */
  function PreservingObject(): Schema {
    NewObjectSchema().(extensions := FlagOnly(PreserveUnknownFieldsKey))
  }

  /** The schemas of `google.protobuf.Struct` and `google.protobuf.Value`:
      any object, and any value, keeping unknown fields. */
  function StructSchema(): Schema {
    PreservingObject()
  }

  function ValueSchema(): Schema {
    NewSchema().(extensions := FlagOnly(PreserveUnknownFieldsKey))
  }

  /** Go's `float64(math.MaxInt64)` and `float64(math.MaxUint64)`: the
      constants round to the nearest double, 2^63 and 2^64. */
  const MaxInt64AsFloat: real := 9223372036854775808.0
  const MaxUint64AsFloat: real := 18446744073709551616.0
  const MinInt64AsFloat: real := -9223372036854775808.0
  const MaxUint32: real := 4294967295.0
  const MinInt32: real := -2147483648.0
  const MaxInt32: real := 2147483647.0

  function NullableInteger(min: real, max: real): Schema {
    NewIntegerSchema().(nullable := true, min := Some(min), max := Some(max))
  }

  /** `specialSoloTypes`: predefined schemas for well-known and
      recursive types, by absolute message name. */
  const SpecialSoloTypes: map<string, Schema> := map[
    "core.solo.io.Metadata" := NewSchema().(typ := "object"),
    "google.protobuf.ListValue" := ArrayOf(NewObjectSchema()),
    "google.protobuf.Struct" := StructSchema(),
    "google.protobuf.Any" := PreservingObject(),
    "google.protobuf.Value" := ValueSchema(),
    "google.protobuf.BoolValue" := NewBoolSchema().(nullable := true),
    "google.protobuf.StringValue" := NewStringSchema().(nullable := true),
    "google.protobuf.DoubleValue" := NewFloat64Schema().(nullable := true),
    "google.protobuf.Int32Value" := NullableInteger(MinInt32, MaxInt32),
    "google.protobuf.Int64Value" := NullableInteger(MinInt64AsFloat, MaxInt64AsFloat),
    "google.protobuf.UInt32Value" := NullableInteger(0.0, MaxUint32),
    "google.protobuf.UInt64Value" := NullableInteger(0.0, MaxUint64AsFloat),
    "google.protobuf.FloatValue" := NewFloat64Schema().(nullable := true),
    "google.protobuf.Duration" := NewStringSchema(),
    "google.protobuf.Empty" := NewObjectSchema().(maxProps := Some(0)),
    "google.protobuf.Timestamp" := NewStringSchema().(format := "date-time")
  ]

  /** The wrapper types of `google/protobuf/wrappers.proto` are nullable. */
  lemma WrappersAreNullable()
    ensures forall name :: name in ["google.protobuf.BoolValue", "google.protobuf.StringValue",
      "google.protobuf.DoubleValue", "google.protobuf.FloatValue", "google.protobuf.Int32Value",
      "google.protobuf.Int64Value", "google.protobuf.UInt32Value", "google.protobuf.UInt64Value"] ==>
      name in SpecialSoloTypes && SpecialSoloTypes[name].nullable
  {
  }

  /** The 32-bit integer wrappers are bounded by the range of their
      protobuf type. */
  lemma IntegerWrapperBounds()
    ensures SpecialSoloTypes["google.protobuf.Int32Value"].min == Some(-0x8000_0000 as real)
    ensures SpecialSoloTypes["google.protobuf.Int32Value"].max == Some(0x7fff_ffff as real)
    ensures SpecialSoloTypes["google.protobuf.UInt32Value"].min == Some(0 as real)
    ensures SpecialSoloTypes["google.protobuf.UInt32Value"].max == Some(0xffff_ffff as real)
  {
  }

  /** The dynamic types accept any content and keep unknown fields. */
  lemma DynamicTypesPreserveFields()
    ensures forall name :: name in ["google.protobuf.Struct", "google.protobuf.Any", "google.protobuf.Value"] ==>
      name in SpecialSoloTypes
      && SpecialSoloTypes[name].extensions == FlagOnly(PreserveUnknownFieldsKey)
      && SpecialSoloTypes[name].properties == map[]
  {
  }

  /** `generateSoloInt64Schema`: an int64 integer that Kubernetes also
      accepts as a string. */
  function SoloInt64Schema(): (s: Schema)
    ensures s.typ == "integer" && s.format == "int64" && s.extensions == FlagOnly(IntOrStringKey)
  {
    NewInt64Schema().(extensions := FlagOnly(IntOrStringKey))
  }

  /** `buildCustomSchemasByMessageName`: the special types, then every
      name injected at runtime mapped to the preserving object schema. */
  method BuildCustomSchemas(messagesWithEmptySchema: seq<string>) returns (schemas: map<string, Schema>)
    ensures schemas.Keys == SpecialSoloTypes.Keys + set n | n in messagesWithEmptySchema
    ensures forall n :: n in messagesWithEmptySchema ==> schemas[n] == PreservingObject()
    ensures forall n :: n in SpecialSoloTypes && n !in messagesWithEmptySchema ==> schemas[n] == SpecialSoloTypes[n]
  {
    schemas := AddPreserving(SpecialSoloTypes, messagesWithEmptySchema);
  }

  /** The second loop of `buildCustomSchemasByMessageName`. */
  method AddPreserving(base: map<string, Schema>, names: seq<string>) returns (schemas: map<string, Schema>)
    ensures schemas.Keys == base.Keys + set n | n in names
    ensures forall n :: n in names ==> schemas[n] == PreservingObject()
    ensures forall n :: n in base && n !in names ==> schemas[n] == base[n]
  {
    schemas := base;
    var i := 0;
    while i < |names|
      invariant 0 <= i <= |names|
      invariant schemas.Keys == base.Keys + set n | n in names[..i]
      invariant forall n :: n in names[..i] ==> schemas[n] == PreservingObject()
      invariant forall n :: n in base && n !in names[..i] ==> schemas[n] == base[n]
    {
      assert names[..i + 1] == names[..i] + [names[i]];
      schemas := schemas[names[i] := PreservingObject()];
      i := i + 1;
    }
    assert names[..i] == names;
  }

  /** `getSoloSchemaForMarkerType`: the Struct schema for `object`, the
      Value schema for `value`, any other type panics. */
  function SoloSchemaForMarkerType(t: string): (r: Result<Schema>)
    ensures r.Err? <==> t != "object" && t != "value"
    ensures r.Ok? ==> r.value.extensions == FlagOnly(PreserveUnknownFieldsKey) && r.value.properties == map[]
    ensures r.Ok? ==> (r.value.typ == "object" <==> t == "object") && r.value.typ in {"object", ""}
  {
    if t == "object" then Ok(StructSchema())
    else if t == "value" then Ok(ValueSchema())
    else Err("unexpected schema type " + t)
  }

  /** The marker types resolve to the special schemas of the same name. */
  lemma MarkerTypesAreSpecialTypes()
    ensures SoloSchemaForMarkerType("object") == Ok(SpecialSoloTypes["google.protobuf.Struct"])
    ensures SoloSchemaForMarkerType("value") == Ok(SpecialSoloTypes["google.protobuf.Value"])
  {
  }

  /** `getSchemaIfRepeated`: a repeated field's schema is an array of the
      element schema. */
  function SchemaIfRepeated(s: Schema, repeated: bool): (r: Schema)
    ensures repeated ==> r.typ == "array" && r.items == Some(NewRef(s))
    ensures !repeated ==> r == s
  {
    if repeated then ArrayOf(s) else s
  }

  // ---------------------------------------------------------------------
  // Field, message and enum schemas, as functions.

  predicate IsScalar(k: FieldKind) {
    !k.TMessage? && !k.TEnum?
  }

  /** The scalar cases of `fieldType`. */
  function ScalarSchema(k: FieldKind, intNative: bool): Schema
    requires IsScalar(k)
  {
    if k.TFloat? || k.TDouble? then NewFloat64Schema()
    else if k.TInt32? || k.TSint32? || k.TSfixed32? then NewInt32Schema()
    else if k.TInt64? || k.TSint64? || k.TSfixed64? || k.TFixed64? then
      (if intNative then NewInt64Schema() else SoloInt64Schema())
    else if k.TFixed32? then NewInt32Schema()
    else if k.TUint32? then NewIntegerSchema().(min := Some(0.0), max := Some(MaxUint32))
    else if k.TUint64? then
      (if intNative then NewIntegerSchema().(min := Some(0.0), format := "uint64") else SoloInt64Schema())
    else if k.TBool? then NewBoolSchema()
    else if k.TString? then NewStringSchema()
    else NewBytesSchema()
  }

  /** The enum values as JSON strings, in declaration order. */
  function EnumNames(values: seq<string>): (r: seq<JsonValue>)
    ensures |r| == |values| && forall i :: 0 <= i < |values| ==> r[i] == JString(values[i])
  {
    seq(|values|, i requires 0 <= i < |values| => JString(values[i]))
  }

  /** `generateEnumSchema`: a string schema listing the value names, or,
      for int-or-string enums, one without a list that Kubernetes also
      accepts as an integer. */
  function EnumSchema(cfg: Config, e: EnumDesc): Schema {
    var o := NewStringSchema().(description := Describe(cfg, e.comment));
    if cfg.enumAsIntOrString then o.(extensions := FlagOnly(IntOrStringKey))
    else o.(enumValues := EnumNames(e.values))
  }

  /** The `$ref` of a field: only a message type that is top-level and
      among the generated messages is referenced. */
  function RefFor(cfg: Config, k: FieldKind): string {
    if k.TMessage? && RelativeName(cfg.currentPackage, NamedMessage(k.msg)) in cfg.messages && TopLevel(k.msg)
    then "#/components/schemas/" + AbsoluteName(NamedMessage(k.msg))
    else ""
  }

  /** What the loop of `generateMessageSchema` carries from one field to
      the next: the object schema, the field names of each oneof by oneof
      index, and the names of the required fields. */
  datatype FieldsState = FieldsState(o: Schema, oneOfFields: map<int, seq<string>>, required: seq<string>)

  /** The names of a oneof so far (none when the index is new). */
  function Group(groups: map<int, seq<string>>, idx: int): seq<string> {
    if idx in groups then groups[idx] else []
  }

  /** `generateMessageSchema`: `None` for a map entry; otherwise the
      object schema with the message description and type rules, one
      property per field, the required fields and the oneof emulation. */
  function MessageSchema(cfg: Config, m: Message): (r: Result<Option<Schema>>)
    ensures r.Ok? ==> (r.value.None? <==> m.mapEntry)
    decreases m, |m.fields| + 2
  {
    if m.mapEntry then Ok(None)
    else
      var o1 :- MustApply(cfg, RulesOf(cfg, m.comment), DescribesType, MessageBase(cfg, m));
      var o3 :- MessageBody(cfg, m, o1);
      Ok(Some(o3))
  }

  /** The part of `generateMessageSchema` after the message rules: the
      fields, the required list and the oneof emulation. */
  function MessageBody(cfg: Config, m: Message, o1: Schema): Result<Schema>
    decreases m, |m.fields| + 1
  {
    var st :- FieldsFrom(cfg, m, 0, FieldsState(o1, map[], []));
    FinishMessage(cfg.protoOneof, st)
  }

  /** The end of `generateMessageSchema`, once the fields are in: the
      required list, then the oneof emulation when it is enabled. */
  function FinishMessage(protoOneof: bool, st: FieldsState): Result<Schema> {
    var o2 := WithRequired(st.o, st.required);
    if protoOneof then PlaceOneOfs(o2, st.oneOfFields) else Ok(o2)
  }

  /** The object schema with the message description, before its rules. */
  function MessageBase(cfg: Config, m: Message): Schema {
    NewObjectSchema().(description := Describe(cfg, m.comment))
  }

  /** `Required` is set only when some field is required. */
  function WithRequired(o: Schema, required: seq<string>): Schema {
    if |required| > 0 then o.(required := required) else o
  }

  /** The loop of `generateMessageSchema` from field `i` on, starting
      from the state `st` the fields before it reached; a failing field
      ends it. */
  function FieldsFrom(cfg: Config, m: Message, i: nat, st: FieldsState): Result<FieldsState>
    requires i <= |m.fields|
    decreases m, |m.fields| - i
  {
    if i == |m.fields| then Ok(st)
    else
      assert m.fields[i] in m.fields;
      var next :- FieldStep(cfg, st, m.fields[i]);
      FieldsFrom(cfg, m, i + 1, next)
  }

  /** One pass of the field loop: record the oneof membership, decide
      whether the field is required (never for a proto3 `optional` one),
      then add the property, typed by a Type marker when the rules carry
      one and by the field's type otherwise. */
  function FieldStep(cfg: Config, st: FieldsState, f: Field): Result<FieldsState>
    decreases f, 3
  {
    var name := FieldName(f);
    var rules := RulesOf(cfg, f.comment);
    var groups := if f.oneofIndex.Some? then st.oneOfFields[f.oneofIndex.value := Group(st.oneOfFields, f.oneofIndex.value) + [name]]
                  else st.oneOfFields;
    var required :- if f.proto3Optional then Ok(false) else RequiredScan(cfg.grammar, rules);
    var t :- SchemaTypeScan(cfg.grammar, rules, DescribesField);
    var prop :- PropertySchema(cfg, f, t);
    Ok(FieldsState(st.o.(properties := st.o.properties[name := NewRef(prop)]), groups,
                   if required then st.required + [name] else st.required))
  }

  /** The schema of a field's property: the marker type's schema (an
      array of it when the field is repeated) with the field description,
      or the field type's schema, each with the field rules applied. */
  function PropertySchema(cfg: Config, f: Field, t: string): Result<Schema>
    decreases f, 2
  {
    var rules := RulesOf(cfg, f.comment);
    if t != "" then
      var base :- SoloSchemaForMarkerType(t);
      MustApply(cfg, rules, DescribesField, SchemaIfRepeated(base, f.repeated).(description := Describe(cfg, f.comment)))
    else
      var sr :- FieldSchemaRef(cfg, f);
      MustApply(cfg, rules, DescribesField, sr.value.value)
  }

  /** `fieldTypeRef`: the field's schema with its `$ref`. */
  function FieldSchemaRef(cfg: Config, f: Field): (r: Result<SchemaRef>)
    ensures r.Ok? ==> r.value.value.Some? && r.value.ref == RefFor(cfg, f.kind)
    decreases f, 1
  {
    var s :- FieldSchema(cfg, f);
    Ok(SchemaRef(RefFor(cfg, f.kind), Some(s)))
  }

  /** `fieldType`: the schema of the field's type, an array of it for a
      repeated field other than a map, described by the field's comment. */
  function FieldSchema(cfg: Config, f: Field): (r: Result<Schema>)
    ensures r.Ok? ==> r.value.description == Describe(cfg, f.comment)
    decreases f, 0
  {
    var b :- KindSchema(cfg, f.kind);
    var s := if f.repeated && !b.1 then ArrayOf(b.0) else b.0;
    Ok(s.(description := Describe(cfg, f.comment)))
  }

  /** The `switch` of `fieldType`: the schema of the type and whether the
      type is a map. */
  function KindSchema(cfg: Config, k: FieldKind): Result<(Schema, bool)>
    decreases k, 0
  {
    if k.TMessage? then MessageKindSchema(cfg, k.msg)
    else if k.TEnum? then Ok((EnumSchema(cfg, k.enum), false))
    else Ok((ScalarSchema(k, cfg.intNative), false))
  }

  /** The message case of `fieldType`: a custom schema with the message
      description, a map as an object whose additional properties are the
      value field's schema, or the message's own schema. */
  function MessageKindSchema(cfg: Config, msg: Message): Result<(Schema, bool)>
    decreases msg, |msg.fields| + 3
  {
    var name := AbsoluteName(NamedMessage(msg));
    if name in cfg.customSchemas then Ok((cfg.customSchemas[name].(description := Describe(cfg, msg.comment)), false))
    else if msg.mapEntry then
      if |msg.fields| < 2 then Err("index out of range [1] with length " + if |msg.fields| == 0 then "0" else "1")
      else
        assert msg.fields[1] in msg.fields;
        var sr :- FieldSchemaRef(cfg, msg.fields[1]);
        if cfg.useRef && sr.ref != "" then Ok((NewObjectSchema().(additionalProperties := Some(SchemaRef(sr.ref, None))), true))
        else Ok((NewObjectSchema().(additionalProperties := Some(NewRef(sr.value.value))), true))
    else
      var o :- MessageSchema(cfg, msg);
      Ok((o.value, false))
  }

  // ---------------------------------------------------------------------
  // The oneof emulation.

  /** `newProtoOneOfSchema`: first a schema that forbids every field of
      the oneof, then one requiring each field in turn. */
  function ProtoOneOf(fields: seq<string>): (r: seq<Schema>)
    ensures |r| == |fields| + 1
  {
    var each := RequireEach(fields);
    [NewSchema().(not := Some(NewRef(NewAnyOfSchema(each))))] + each
  }

  function RequireEach(fields: seq<string>): (r: seq<Schema>)
    ensures |r| == |fields| && forall i :: 0 <= i < |fields| ==> r[i] == NewSchema().(required := [fields[i]])
  {
    seq(|fields|, i requires 0 <= i < |fields| => NewSchema().(required := [fields[i]]))
  }

  /** Every oneof index is a position of the `len(oneOfFields)`-long
      slice the Go code indexes with it. */
  predicate DenseIndexes(groups: map<int, seq<string>>) {
    forall idx :: idx in groups ==> 0 <= idx < |groups|
  }

  /** The slice of oneof schema lists, by oneof index. */
  function OneOfLists(groups: map<int, seq<string>>): (r: seq<seq<Schema>>)
    ensures |r| == |groups|
  {
    seq(|groups|, i requires 0 <= i < |groups| => if i in groups then ProtoOneOf(groups[i]) else [])
  }

  /** The positions of an `n`-long slice. */
  function Positions(n: nat): (r: set<int>)
    ensures forall j :: j in r <==> 0 <= j < n
    ensures |r| == n
  {
    if n == 0 then {} else Positions(n - 1) + {n - 1}
  }

  /** Pigeonhole: the oneof indexes all fit the slice exactly when every
      position of the slice is an index. */
  lemma DenseIffEveryPositionIsKey(groups: map<int, seq<string>>)
    ensures DenseIndexes(groups) <==> forall j :: 0 <= j < |groups| ==> j in groups
  {
    if DenseIndexes(groups) {
      KeysFillPositions(groups.Keys, |groups|);
    }
    if forall j :: 0 <= j < |groups| ==> j in groups {
      PositionsHoldKeys(groups.Keys, |groups|);
    }
  }

  lemma KeysFillPositions(keys: set<int>, n: nat)
    requires |keys| == n && forall k :: k in keys ==> 0 <= k < n
    ensures forall j :: 0 <= j < n ==> j in keys
  {
    var all := Positions(n);
    assert keys <= all;
    assert |all - keys| == |all| - |keys| == 0;
    forall j | 0 <= j < n
      ensures j in keys
    {
      assert j !in all - keys;
    }
  }

  lemma PositionsHoldKeys(keys: set<int>, n: nat)
    requires |keys| == n && forall j :: 0 <= j < n ==> j in keys
    ensures forall k :: k in keys ==> 0 <= k < n
  {
    var all := Positions(n);
    assert all <= keys;
    assert |keys - all| == |keys| - |all| == 0;
    assert keys - all == {};
  }

  /** The oneof part of `generateMessageSchema`: an index outside the
      slice panics; a single oneof becomes the schema's `oneOf`, several
      become one `oneOf` schema each, appended to `allOf` in index order. */
  function PlaceOneOfs(o: Schema, groups: map<int, seq<string>>): Result<Schema> {
    if !DenseIndexes(groups) then Err("index out of range")
    else
      var lists := OneOfLists(groups);
      if |lists| == 0 then Ok(o)
      else if |lists| == 1 then Ok(o.(oneOf := Refs(lists[0])))
      else Ok(o.(allOf := o.allOf + OneOfRefs(lists)))
  }

  function OneOfRefs(lists: seq<seq<Schema>>): (r: seq<SchemaRef>)
    ensures |r| == |lists| && forall i :: 0 <= i < |lists| ==> r[i] == NewRef(NewOneOfSchema(lists[i]))
  {
    seq(|lists|, i requires 0 <= i < |lists| => NewRef(NewOneOfSchema(lists[i])))
  }

  // ---------------------------------------------------------------------
  // The imperative operations.

  /** `mustApplyRulesToSchema` on a mutable schema: `Some` carries the
      panic message. */
  method MustApplyRules(cfg: Config, rules: seq<string>, o: SchemaObject, target: Target) returns (err: Option<string>)
    modifies o
    ensures err.None? <==> MustApply(cfg, rules, target, old(o.value)).Ok?
    ensures err.None? ==> o.value == MustApply(cfg, rules, target, old(o.value)).value
    ensures err.Some? ==> MustApply(cfg, rules, target, old(o.value)) == Err(err.value)
  {
    if cfg.disableKubeMarkers {
      return None;
    }
    var status := MustApplyRulesToSchema(cfg.grammar, rules, o, target);
    if !status.Success? {
      return Some(status.message);
    }
    return None;
  }

  /** `generateEnumSchema`. */
  method GenerateEnumSchema(cfg: Config, e: EnumDesc) returns (o: Schema)
    ensures o == EnumSchema(cfg, e)
  {
    o := NewStringSchema().(description := Describe(cfg, e.comment));
    if cfg.enumAsIntOrString {
      o := o.(extensions := FlagOnly(IntOrStringKey));
      return;
    }
    ghost var base := o;
    var values := e.values;
    var i := 0;
    while i < |values|
      invariant 0 <= i <= |values|
      invariant o == base.(enumValues := o.enumValues)
      invariant |o.enumValues| == i && forall j :: 0 <= j < i ==> o.enumValues[j] == JString(values[j])
    {
      o := o.(enumValues := o.enumValues + [JString(values[i])]);
      i := i + 1;
    }
    o := o.(typ := "string");
    assert o.enumValues == EnumNames(e.values);
  }

  /** `newProtoOneOfSchema`. */
  method NewProtoOneOfSchema(fields: seq<string>) returns (all: seq<Schema>)
    ensures all == ProtoOneOf(fields)
  {
    var fieldSchemas := new Schema[|fields|](_ => NewSchema());
    for i := 0 to |fields|
      invariant forall j :: 0 <= j < i ==> fieldSchemas[j] == NewSchema().(required := [fields[j]])
    {
      fieldSchemas[i] := NewSchema().(required := [fields[i]]);
    }
    RequireEachIs(fields, fieldSchemas[..]);
    var anyOfSchema := NewAnyOfSchema(fieldSchemas[..]);
    var notAnyOfSchema := NewSchema().(not := Some(NewRef(anyOfSchema)));
    var allOneOfSchemas := new Schema[fieldSchemas.Length + 1](_ => NewSchema());
    allOneOfSchemas[0] := notAnyOfSchema;
    for i := 0 to fieldSchemas.Length
      modifies allOneOfSchemas
      invariant allOneOfSchemas[0] == notAnyOfSchema
      invariant forall j :: 0 <= j < i ==> allOneOfSchemas[j + 1] == fieldSchemas[j]
    {
      allOneOfSchemas[i + 1] := fieldSchemas[i];
    }
    all := allOneOfSchemas[..];
    ConsIs(all, notAnyOfSchema, fieldSchemas[..]);
  }

  lemma RequireEachIs(fields: seq<string>, s: seq<Schema>)
    requires |s| == |fields| && forall j :: 0 <= j < |fields| ==> s[j] == NewSchema().(required := [fields[j]])
    ensures s == RequireEach(fields)
  {
  }

  lemma ConsIs(all: seq<Schema>, first: Schema, rest: seq<Schema>)
    requires |all| == |rest| + 1 && all[0] == first && forall j :: 0 <= j < |rest| ==> all[j + 1] == rest[j]
    ensures all == [first] + rest
  {
  }

  /** The oneof part of `generateMessageSchema`, in place: the slice of
      oneof schema lists, then `oneOf` or `allOf`. */
  method AddProtoOneOfs(o: SchemaObject, oneOfFields: map<int, seq<string>>) returns (err: Option<string>)
    modifies o
    ensures err.None? <==> PlaceOneOfs(old(o.value), oneOfFields).Ok?
    ensures err.None? ==> o.value == PlaceOneOfs(old(o.value), oneOfFields).value
    ensures err.Some? ==> PlaceOneOfs(old(o.value), oneOfFields) == Err(err.value)
  {
    var oneOfs;
    err, oneOfs := CollectOneOfs(oneOfFields);
    if err.Some? {
      return;
    }
    if |oneOfs| == 1 {
      o.value := o.value.(oneOf := Refs(oneOfs[0]));
    } else if |oneOfs| > 1 {
      for i := 0 to |oneOfs|
        invariant o.value == old(o.value).(allOf := old(o.value).allOf + OneOfRefs(oneOfs[..i]))
      {
        assert OneOfRefs(oneOfs[..i + 1]) == OneOfRefs(oneOfs[..i]) + [NewRef(NewOneOfSchema(oneOfs[i]))];
        o.value := o.value.(allOf := o.value.allOf + [NewRef(NewOneOfSchema(oneOfs[i]))]);
      }
      assert oneOfs[..|oneOfs|] == oneOfs;
    }
  }

  /** The slice of oneof schema lists. The Go loop visits the map's keys
      in random order and panics at a key outside the slice; each key only
      writes its own position, so the outcome is that of visiting the
      positions in order and failing at the first one that is not a key
      (`DenseIffEveryPositionIsKey`). */
  method CollectOneOfs(oneOfFields: map<int, seq<string>>) returns (err: Option<string>, lists: seq<seq<Schema>>)
    ensures err.None? <==> DenseIndexes(oneOfFields)
    ensures err.None? ==> lists == OneOfLists(oneOfFields)
    ensures err.Some? ==> err.value == "index out of range"
  {
    DenseIffEveryPositionIsKey(oneOfFields);
    var n := |oneOfFields|;
    var oneOfs := new seq<Schema>[n](_ => []);
    for j := 0 to n
      invariant forall k :: 0 <= k < j ==> k in oneOfFields
      invariant forall k :: 0 <= k < j ==> oneOfs[k] == ProtoOneOf(oneOfFields[k])
      invariant forall k :: j <= k < n ==> oneOfs[k] == []
    {
      if j !in oneOfFields {
        return Some("index out of range"), [];
      }
      var oneOfSchemas := NewProtoOneOfSchema(oneOfFields[j]);
      assert [] + oneOfSchemas == oneOfSchemas;
      oneOfs[j] := oneOfs[j] + oneOfSchemas;
    }
    lists := oneOfs[..];
    assert lists == OneOfLists(oneOfFields);
    err := None;
  }

  /** `generateMessageSchema`. */
  method GenerateMessageSchema(cfg: Config, m: Message) returns (r: Result<Option<Schema>>)
    ensures r == MessageSchema(cfg, m)
    decreases m, |m.fields| + 2
  {
    if m.mapEntry {
      return Ok(None);
    }
    var o := new SchemaObject(NewObjectSchema());
    o.value := o.value.(description := Describe(cfg, m.comment));
    var _, msgRules := ParseComments(m.comment, cfg.ignored);
    var err := MustApplyRules(cfg, msgRules, o, DescribesType);
    if err.Some? {
      return Err(err.value);
    }
    var body := CompleteMessage(cfg, o, m);
    if body.Err? {
      return Err(body.error);
    }
    return Ok(Some(body.value));
  }

  /** The fields, the required list and the oneofs, added to the schema
      under construction. */
  method CompleteMessage(cfg: Config, o: SchemaObject, m: Message) returns (r: Result<Schema>)
    modifies o
    ensures r == MessageBody(cfg, m, old(o.value))
    decreases m, |m.fields| + 1
  {
    var err, oneOfFields, requiredFields := AddFields(cfg, o, m);
    if err.Some? {
      return Err(err.value);
    }
    if |requiredFields| > 0 {
      o.value := o.value.(required := requiredFields);
    }
    if cfg.protoOneof {
      err := AddProtoOneOfs(o, oneOfFields);
      if err.Some? {
        return Err(err.value);
      }
    }
    return Ok(o.value);
  }

  /** A method's error, or the state it reached. */
  function Outcome(err: Option<string>, st: FieldsState): (r: Result<FieldsState>)
    ensures r.Ok? <==> err.None?
  {
    if err.Some? then Err(err.value) else Ok(st)
  }

  /** The field loop of `generateMessageSchema`. */
  method AddFields(cfg: Config, o: SchemaObject, m: Message)
    returns (err: Option<string>, oneOfFields: map<int, seq<string>>, requiredFields: seq<string>)
    modifies o
    ensures Outcome(err, FieldsState(o.value, oneOfFields, requiredFields)) == FieldsFrom(cfg, m, 0, FieldsState(old(o.value), map[], []))
    decreases m, |m.fields|
  {
    err, oneOfFields, requiredFields := None, map[], [];
    var i := 0;
    while i < |m.fields| && err.None?
      invariant 0 <= i <= |m.fields|
      invariant err.None? ==> FieldsFrom(cfg, m, i, FieldsState(o.value, oneOfFields, requiredFields)) == FieldsFrom(cfg, m, 0, FieldsState(old(o.value), map[], []))
      invariant err.Some? ==> Err(err.value) == FieldsFrom(cfg, m, 0, FieldsState(old(o.value), map[], []))
    {
      ghost var before := FieldsState(o.value, oneOfFields, requiredFields);
      assert m.fields[i] in m.fields;
      err, oneOfFields, requiredFields := AddField(cfg, o, m.fields[i], oneOfFields, requiredFields);
      FieldsFromStep(cfg, m, i, before, err, FieldsState(o.value, oneOfFields, requiredFields));
      i := i + 1;
    }
  }

  /** One pass of the field loop: a failing field is the loop's error,
      otherwise the loop goes on from the state the field reached. */
  lemma FieldsFromStep(cfg: Config, m: Message, i: nat, st: FieldsState, err: Option<string>, st': FieldsState)
    requires i < |m.fields| && Outcome(err, st') == FieldStep(cfg, st, m.fields[i])
    ensures err.None? ==> FieldsFrom(cfg, m, i, st) == FieldsFrom(cfg, m, i + 1, st')
    ensures err.Some? ==> FieldsFrom(cfg, m, i, st) == Err(err.value)
  {
  }

  /** One pass of the field loop of `generateMessageSchema`. */
  method AddField(cfg: Config, o: SchemaObject, field: Field, oneOfFields: map<int, seq<string>>, requiredFields: seq<string>)
    returns (err: Option<string>, oneOfFields': map<int, seq<string>>, requiredFields': seq<string>)
    modifies o
    ensures Outcome(err, FieldsState(o.value, oneOfFields', requiredFields')) == FieldStep(cfg, FieldsState(old(o.value), oneOfFields, requiredFields), field)
    decreases field, 3
  {
    var fieldName := FieldName(field);
    var _, fieldRules := ParseComments(field.comment, cfg.ignored);
    oneOfFields' := oneOfFields;
    requiredFields' := requiredFields;
    if field.oneofIndex.Some? {
      var idx := field.oneofIndex.value;
      oneOfFields' := oneOfFields'[idx := Group(oneOfFields', idx) + [fieldName]];
    }
    if !field.proto3Optional {
      var required := IsRequired(cfg.grammar, fieldRules);
      if required.Err? {
        return Some(required.error), oneOfFields', requiredFields';
      }
      if required.value {
        requiredFields' := requiredFields' + [fieldName];
      }
    }
    var schemaType := GetSchemaType(cfg.grammar, fieldRules, DescribesField);
    if schemaType.Err? {
      return Some(schemaType.error), oneOfFields', requiredFields';
    }
    var property := FieldProperty(cfg, field, schemaType.value);
    if property.Err? {
      return Some(property.error), oneOfFields', requiredFields';
    }
    o.WithProperty(fieldName, property.value);
    return None, oneOfFields', requiredFields';
  }

  /** The property schema of a field in `generateMessageSchema`: the
      `continue` branch for a Type marker, then the `fieldTypeRef` path. */
  method FieldProperty(cfg: Config, field: Field, schemaType: string) returns (r: Result<Schema>)
    ensures r == PropertySchema(cfg, field, schemaType)
    decreases field, 2
  {
    var _, fieldRules := ParseComments(field.comment, cfg.ignored);
    if schemaType != "" {
      var tmp := SoloSchemaForMarkerType(schemaType);
      if tmp.Err? {
        return Err(tmp.error);
      }
      var schema := new SchemaObject(SchemaIfRepeated(tmp.value, field.repeated));
      schema.value := schema.value.(description := Describe(cfg, field.comment));
      var err := MustApplyRules(cfg, fieldRules, schema, DescribesField);
      if err.Some? {
        return Err(err.value);
      }
      return Ok(schema.value);
    }
    var sr := FieldTypeRef(cfg, field);
    if sr.Err? {
      return Err(sr.error);
    }
    var value := new SchemaObject(sr.value.value.value);
    var err := MustApplyRules(cfg, fieldRules, value, DescribesField);
    if err.Some? {
      return Err(err.value);
    }
    return Ok(value.value);
  }

  /** `fieldTypeRef`. */
  method FieldTypeRef(cfg: Config, field: Field) returns (r: Result<SchemaRef>)
    ensures r == FieldSchemaRef(cfg, field)
    decreases field, 1
  {
    var s := FieldType(cfg, field);
    if s.Err? {
      return Err(s.error);
    }
    var ref := "";
    if field.kind.TMessage? {
      var msg := field.kind.msg;
      if RelativeName(cfg.currentPackage, NamedMessage(msg)) in cfg.messages && TopLevel(msg) {
        ref := "#/components/schemas/" + AbsoluteName(NamedMessage(msg));
      }
    }
    return Ok(SchemaRef(ref, Some(s.value)));
  }

  /** `fieldType`. */
  method FieldType(cfg: Config, field: Field) returns (r: Result<Schema>)
    ensures r == FieldSchema(cfg, field)
    decreases field, 0
  {
    var schema: Schema;
    var isMap := false;
    if field.kind.TMessage? {
      var m := MessageFieldType(cfg, field.kind.msg);
      if m.Err? {
        return Err(m.error);
      }
      schema, isMap := m.value.0, m.value.1;
    } else if field.kind.TEnum? {
      schema := GenerateEnumSchema(cfg, field.kind.enum);
    } else {
      schema := ScalarSchema(field.kind, cfg.intNative);
    }
    if field.repeated && !isMap {
      schema := ArrayOf(schema);
    }
    schema := schema.(description := Describe(cfg, field.comment));
    return Ok(schema);
  }

  /** The message case of `fieldType`. */
  method MessageFieldType(cfg: Config, msg: Message) returns (r: Result<(Schema, bool)>)
    ensures r == MessageKindSchema(cfg, msg)
    decreases msg, |msg.fields| + 3
  {
    var name := AbsoluteName(NamedMessage(msg));
    if name in cfg.customSchemas {
      return Ok((cfg.customSchemas[name].(description := Describe(cfg, msg.comment)), false));
    }
    if msg.mapEntry {
      if |msg.fields| < 2 {
        return Err("index out of range [1] with length " + if |msg.fields| == 0 then "0" else "1");
      }
      assert msg.fields[1] in msg.fields;
      var sr := FieldTypeRef(cfg, msg.fields[1]);
      if sr.Err? {
        return Err(sr.error);
      }
      if cfg.useRef && sr.value.ref != "" {
        return Ok((NewObjectSchema().(additionalProperties := Some(SchemaRef(sr.value.ref, None))), true));
      }
      return Ok((NewObjectSchema().(additionalProperties := Some(NewRef(sr.value.value.value))), true));
    }
    var o := GenerateMessageSchema(cfg, msg);
    if o.Err? {
      return Err(o.error);
    }
    return Ok((o.value.value, false));
  }
}
