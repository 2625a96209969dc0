/** What `fieldType`, `fieldTypeRef` and `generateEnumSchema` promise
    about the schema of a field: the OpenAPI type of each scalar kind,
    the priority of the custom schemas, the object schema of a map, the
    `$ref` of a generated top-level message, and the two enum forms. */
module FieldFacts {
  import opened Wrappers
  import opened OpenApi
  import opened Registration
  import opened Descriptors
  import opened Generator

  predicate Is32BitSigned(k: FieldKind) {
    k.TInt32? || k.TSint32? || k.TSfixed32? || k.TFixed32?
  }

  predicate Is64Bit(k: FieldKind) {
    k.TInt64? || k.TSint64? || k.TSfixed64? || k.TFixed64? || k.TUint64?
  }

  /** The scalar table, types: floating point kinds are numbers, bool is
      a boolean, string and bytes are strings, and every integer kind is
      an integer. */
  lemma ScalarTypes(k: FieldKind, intNative: bool)
    requires IsScalar(k)
    ensures var s := ScalarSchema(k, intNative);
      (s.typ == "number" <==> k.TFloat? || k.TDouble?)
      && (s.typ == "boolean" <==> k.TBool?)
      && (s.typ == "string" <==> k.TString? || k.TBytes?)
      && (s.typ == "integer" <==> Is32BitSigned(k) || k.TUint32? || Is64Bit(k))
  {
    if Is32BitSigned(k) || k.TUint32? {
      Integers32(k, intNative);
    } else if Is64Bit(k) {
      Integers64(k, intNative);
    } else {
      OtherScalars(k, intNative);
    }
  }

  /** The scalar table, formats: bytes are base64 encoded, the signed
      32-bit kinds are int32, uint32 is bounded by its range, and the
      64-bit kinds are int-or-string int64 integers unless native
      integers are asked for, when uint64 is an unsigned integer and the
      others plain int64 integers. */
  lemma ScalarFormats(k: FieldKind, intNative: bool)
    requires IsScalar(k)
    ensures var s := ScalarSchema(k, intNative);
      (s.format == "byte" <==> k.TBytes?)
      && (s.format == "int32" <==> Is32BitSigned(k))
      && (k.TUint32? ==> s.min == Some(0.0) && s.max == Some(0xffff_ffff as real))
      && (Is64Bit(k) && !intNative ==> s == SoloInt64Schema())
      && (Is64Bit(k) && intNative ==>
            (s.extensions == None
             && (k.TUint64? ==> s.format == "uint64" && s.min == Some(0.0))
             && (!k.TUint64? ==> s.format == "int64")))
      && (!Is64Bit(k) ==> s.extensions == None && !s.nullable)
  {
    if Is32BitSigned(k) || k.TUint32? {
      Integers32(k, intNative);
    } else if Is64Bit(k) {
      Integers64(k, intNative);
    } else {
      OtherScalars(k, intNative);
    }
  }

  lemma Integers32(k: FieldKind, intNative: bool)
    requires Is32BitSigned(k) || k.TUint32?
    ensures var s := ScalarSchema(k, intNative);
      s.typ == "integer" && s.extensions == None && !s.nullable
      && (Is32BitSigned(k) ==> s.format == "int32")
      && (k.TUint32? ==> s.format == "" && s.min == Some(0.0) && s.max == Some(0xffff_ffff as real))
  {
  }

  lemma Integers64(k: FieldKind, intNative: bool)
    requires Is64Bit(k)
    ensures var s := ScalarSchema(k, intNative);
      s.typ == "integer"
      && (!intNative ==> s == SoloInt64Schema())
      && (intNative ==> s.extensions == None && (if k.TUint64? then s.format == "uint64" && s.min == Some(0.0) else s.format == "int64"))
  {
  }

  lemma OtherScalars(k: FieldKind, intNative: bool)
    requires IsScalar(k) && !Is32BitSigned(k) && !k.TUint32? && !Is64Bit(k)
    ensures var s := ScalarSchema(k, intNative);
      s.extensions == None && !s.nullable
      && (k.TFloat? || k.TDouble? ==> s.typ == "number" && s.format == "")
      && (k.TBool? ==> s.typ == "boolean" && s.format == "")
      && (k.TString? ==> s.typ == "string" && s.format == "")
      && (k.TBytes? ==> s.typ == "string" && s.format == "byte")
  {
  }

  /** A custom schema wins over every other case for its message, a map
      entry included: the field gets that schema with the message's
      description (an array of it when the field is repeated), then the
      field's description. */
  lemma CustomSchemaWins(cfg: Config, f: Field)
    requires f.kind.TMessage? && AbsoluteName(NamedMessage(f.kind.msg)) in cfg.customSchemas
    ensures var custom := cfg.customSchemas[AbsoluteName(NamedMessage(f.kind.msg))];
      FieldSchema(cfg, f)
        == Ok(SchemaIfRepeated(custom.(description := Describe(cfg, f.kind.msg.comment)), f.repeated)
                .(description := Describe(cfg, f.comment)))
  {
    var msg := f.kind.msg;
    var custom := cfg.customSchemas[AbsoluteName(NamedMessage(msg))];
    assert KindSchema(cfg, f.kind) == MessageKindSchema(cfg, msg);
    assert MessageKindSchema(cfg, msg) == Ok((custom.(description := Describe(cfg, msg.comment)), false));
  }

  /** A map field, whose type is a map entry without a custom schema, is
      an object, never an array, whose additional properties are the
      schema of the entry's value field, or only its `$ref` when
      references are asked for and the value is a generated top-level
      message. A map entry without a value field panics indexing it. */
  lemma MapFieldIsObject(cfg: Config, f: Field)
    requires f.kind.TMessage? && f.kind.msg.mapEntry
    requires AbsoluteName(NamedMessage(f.kind.msg)) !in cfg.customSchemas
    ensures |f.kind.msg.fields| < 2 ==> FieldSchema(cfg, f).Err?
    ensures |f.kind.msg.fields| >= 2 ==>
      (FieldSchema(cfg, f).Ok? <==> FieldSchema(cfg, f.kind.msg.fields[1]).Ok?)
    ensures FieldSchema(cfg, f).Ok? ==>
      var s := FieldSchema(cfg, f).value;
      var v := f.kind.msg.fields[1];
      s.typ == "object" && s.items == None && s.properties == map[] && s.description == Describe(cfg, f.comment)
      && s.additionalProperties.Some?
      && (cfg.useRef && RefFor(cfg, v.kind) != "" ==> s.additionalProperties.value == SchemaRef(RefFor(cfg, v.kind), None))
      && (!(cfg.useRef && RefFor(cfg, v.kind) != "") ==> s.additionalProperties.value == NewRef(FieldSchema(cfg, v).value))
  {
    var msg := f.kind.msg;
    assert KindSchema(cfg, f.kind) == MessageKindSchema(cfg, msg);
    if |msg.fields| >= 2 {
      var v := msg.fields[1];
      assert v in msg.fields;
      var sr := FieldSchemaRef(cfg, v);
      assert sr.Ok? <==> FieldSchema(cfg, v).Ok?;
      if sr.Ok? {
        assert sr.value.ref == RefFor(cfg, v.kind) && sr.value.value == Some(FieldSchema(cfg, v).value);
        var b := MessageKindSchema(cfg, msg).value;
        assert b.1 && b.0.typ == "object" && b.0.items == None && b.0.properties == map[];
      }
    }
  }

  /** Only a message type is referenced, and only when it is top-level
      and among the messages being generated; the reference points at the
      component named by its absolute name. */
  lemma RefRule(cfg: Config, k: FieldKind)
    ensures RefFor(cfg, k) != "" <==>
      k.TMessage? && TopLevel(k.msg) && RelativeName(cfg.currentPackage, NamedMessage(k.msg)) in cfg.messages
    ensures RefFor(cfg, k) != "" ==> RefFor(cfg, k) == "#/components/schemas/" + AbsoluteName(NamedMessage(k.msg))
  {
  }

  /** With kube markers disabled no rule touches a field: its property is
      the schema of its type, or of its Type marker. */
  lemma DisabledMarkersLeaveFields(cfg: Config, f: Field, t: string)
    requires cfg.disableKubeMarkers
    ensures PropertySchema(cfg, f, "") == FieldSchema(cfg, f)
    ensures t != "" && SoloSchemaForMarkerType(t).Ok? ==>
      PropertySchema(cfg, f, t)
        == Ok(SchemaIfRepeated(SoloSchemaForMarkerType(t).value, f.repeated).(description := Describe(cfg, f.comment)))
  {
  }

  /** The enum schema is a described string; it lists the value names in
      declaration order, or, for int-or-string enums, lists nothing and
      is flagged as accepting integers too. */
  lemma EnumSchemaShape(cfg: Config, e: EnumDesc)
    ensures var s := EnumSchema(cfg, e);
      s.typ == "string" && s.format == "" && s.description == Describe(cfg, e.comment)
      && (cfg.enumAsIntOrString ==> s.enumValues == [] && s.extensions == FlagOnly(IntOrStringKey))
      && (!cfg.enumAsIntOrString ==>
            s.extensions == None && |s.enumValues| == |e.values|
            && forall i :: 0 <= i < |e.values| ==> s.enumValues[i] == JString(e.values[i]))
  {
  }
}
