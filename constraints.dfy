/** The kubebuilder constraint markers of pkg/markers/constraints.go: one
    variant per Go marker type, the effect of each `ApplyToSchema` as the
    pure function `Apply`, and the in-place method that the rule applier
    calls on a mutable schema. */
module Constraints {
  import opened Wrappers
  import opened OpenApi

  /** The marker values. Numeric bounds are reals (the Go `float64`);
      length, item and property counts are Go `int`s. */
  datatype Marker =
    | Maximum(maximum: real)
    | Minimum(minimum: real)
    | ExclusiveMaximum(exclusiveMax: bool)
    | ExclusiveMinimum(exclusiveMin: bool)
    | MultipleOf(multiple: real)
    | MaxProperties(maxProps: int)
    | MinProperties(minProps: int)
    | MaxLength(maxLength: int)
    | MinLength(minLength: int)
    | Pattern(pattern: string)
    | MaxItems(maxItems: int)
    | MinItems(minItems: int)
    | UniqueItems(unique: bool)
    | Enum(values: seq<JsonValue>)
    | Format(format: string)
    | Type(typeName: string)
    | XPreserveUnknownFields
    | XEmbeddedResource
    | XIntOrString
    | XValidation(validation: ValidationRule)
    | Nullable
    | Default(defaultValue: JsonValue)
    | Example(exampleValue: JsonValue)
    | AltName(altName: string)
    | Schemaless
    | Required

  /** The Go type name of a marker value (`reflect.TypeOf(obj).Name()`). */
  function TypeName(m: Marker): string {
    match m
    case Maximum(_) => "Maximum"
    case Minimum(_) => "Minimum"
    case ExclusiveMaximum(_) => "ExclusiveMaximum"
    case ExclusiveMinimum(_) => "ExclusiveMinimum"
    case MultipleOf(_) => "MultipleOf"
    case MaxProperties(_) => "MaxProperties"
    case MinProperties(_) => "MinProperties"
    case MaxLength(_) => "MaxLength"
    case MinLength(_) => "MinLength"
    case Pattern(_) => "Pattern"
    case MaxItems(_) => "MaxItems"
    case MinItems(_) => "MinItems"
    case UniqueItems(_) => "UniqueItems"
    case Enum(_) => "Enum"
    case Format(_) => "Format"
    case Type(_) => "Type"
    case XPreserveUnknownFields => "XPreserveUnknownFields"
    case XEmbeddedResource => "XEmbeddedResource"
    case XIntOrString => "XIntOrString"
    case XValidation(_) => "XValidation"
    case Nullable => "Nullable"
    case Default(_) => "Default"
    case Example(_) => "Example"
    case AltName(_) => "AltName"
    case Schemaless => "Schemaless"
    case Required => "Required"
  }

  /** `hasNumericType`. */
  predicate HasNumericType(s: Schema) {
    s.typ == "integer" || s.typ == "number"
  }

  /** `isIntegral` (NaN and infinities do not arise for reals). */
  predicate IsIntegral(v: real) {
    v == v.Floor as real
  }

  /** Go's conversion of an `int64` to `uint64`, which the library's
      `WithMaxLength` and its siblings apply to a count. */
  function Uint64(n: int): (r: nat)
    ensures 0 <= n < 0x1_0000_0000_0000_0000 ==> r == n
    ensures -0x8000_0000_0000_0000 <= n < 0 ==> r == n + 0x1_0000_0000_0000_0000
    ensures (r - n) % 0x1_0000_0000_0000_0000 == 0
    ensures r < 0x1_0000_0000_0000_0000
  {
    n % 0x1_0000_0000_0000_0000
  }

  /** The schema kind a marker's guard demands. */
  datatype Kind = AnyKind | NumericKind | StringKind | ArrayKind | ObjectKind

  function RequiredKind(m: Marker): Kind {
    match m
    case Maximum(_) => NumericKind
    case Minimum(_) => NumericKind
    case ExclusiveMaximum(_) => NumericKind
    case ExclusiveMinimum(_) => NumericKind
    case MultipleOf(_) => NumericKind
    case MaxProperties(_) => ObjectKind
    case MinProperties(_) => ObjectKind
    case MaxLength(_) => StringKind
    case MinLength(_) => StringKind
    case Pattern(_) => StringKind
    case MaxItems(_) => ArrayKind
    case MinItems(_) => ArrayKind
    case UniqueItems(_) => ArrayKind
    case _ => AnyKind
  }

  predicate KindAccepts(k: Kind, s: Schema) {
    match k
    case AnyKind => true
    case NumericKind => HasNumericType(s)
    case StringKind => s.typ == "string"
    case ArrayKind => s.typ == "array"
    case ObjectKind => s.typ == "object"
  }

  /** The one schema field a marker writes. */
  datatype SchemaField =
    | TypeField | FormatField | EnumField | DefaultField | ExampleField | NullableField
    | MinField | MaxField | ExclusiveMinField | ExclusiveMaxField | MultipleOfField
    | MinLengthField | MaxLengthField | PatternField | MinItemsField | MaxItemsField
    | UniqueItemsField | MinPropsField | MaxPropsField | ExtensionsField

  /** `s` with `f` reset, so that two schemas agree on every field but `f`
      exactly when their `Forget`s are equal. */
  function Forget(s: Schema, f: SchemaField): Schema {
    match f
    case TypeField => s.(typ := "")
    case FormatField => s.(format := "")
    case EnumField => s.(enumValues := [])
    case DefaultField => s.(default := None)
    case ExampleField => s.(example := None)
    case NullableField => s.(nullable := false)
    case MinField => s.(min := None)
    case MaxField => s.(max := None)
    case ExclusiveMinField => s.(exclusiveMin := false)
    case ExclusiveMaxField => s.(exclusiveMax := false)
    case MultipleOfField => s.(multipleOf := None)
    case MinLengthField => s.(minLength := 0)
    case MaxLengthField => s.(maxLength := None)
    case PatternField => s.(pattern := "")
    case MinItemsField => s.(minItems := 0)
    case MaxItemsField => s.(maxItems := None)
    case UniqueItemsField => s.(uniqueItems := false)
    case MinPropsField => s.(minProps := 0)
    case MaxPropsField => s.(maxProps := None)
    case ExtensionsField => s.(extensions := None)
  }

  predicate SameExcept(a: Schema, b: Schema, f: SchemaField) {
    Forget(a, f) == Forget(b, f)
  }

  /** The field a single-field marker writes; `None` for the markers that
      change nothing or everything (AltName, Required, Schemaless). */
  function WrittenField(m: Marker): Option<SchemaField> {
    match m
    case Maximum(_) => Some(MaxField)
    case Minimum(_) => Some(MinField)
    case ExclusiveMaximum(_) => Some(ExclusiveMaxField)
    case ExclusiveMinimum(_) => Some(ExclusiveMinField)
    case MultipleOf(_) => Some(MultipleOfField)
    case MaxProperties(_) => Some(MaxPropsField)
    case MinProperties(_) => Some(MinPropsField)
    case MaxLength(_) => Some(MaxLengthField)
    case MinLength(_) => Some(MinLengthField)
    case Pattern(_) => Some(PatternField)
    case MaxItems(_) => Some(MaxItemsField)
    case MinItems(_) => Some(MinItemsField)
    case UniqueItems(_) => Some(UniqueItemsField)
    case Enum(_) => Some(EnumField)
    case Format(_) => Some(FormatField)
    case Type(_) => Some(TypeField)
    case XPreserveUnknownFields => Some(ExtensionsField)
    case XEmbeddedResource => Some(ExtensionsField)
    case XIntOrString => Some(ExtensionsField)
    case XValidation(_) => Some(ExtensionsField)
    case Nullable => Some(NullableField)
    case Default(_) => Some(DefaultField)
    case Example(_) => Some(ExampleField)
    case AltName(_) => None
    case Schemaless => None
    case Required => None
  }

  /** The schema carries the value of a setter marker. */
  predicate Records(m: Marker, s: Schema) {
    match m
    case Maximum(v) => s.max == Some(v)
    case Minimum(v) => s.min == Some(v)
    case ExclusiveMaximum(b) => s.exclusiveMax == b
    case ExclusiveMinimum(b) => s.exclusiveMin == b
    case MultipleOf(v) => s.multipleOf == Some(v)
    case MaxProperties(n) => s.maxProps == Some(Uint64(n))
    case MinProperties(n) => s.minProps == Uint64(n)
    case MaxLength(n) => s.maxLength == Some(Uint64(n))
    case MinLength(n) => s.minLength == Uint64(n)
    case Pattern(p) => s.pattern == p
    case MaxItems(n) => s.maxItems == Some(Uint64(n))
    case MinItems(n) => s.minItems == Uint64(n)
    case UniqueItems(b) => s.uniqueItems == b
    case Enum(vs) => s.enumValues == vs
    case Format(f) => s.format == f
    case Nullable => s.nullable
    case Default(v) => s.default == Some(v)
    case Example(v) => s.example == Some(v)
    case XPreserveUnknownFields => s.extensions.Some? && s.extensions.value[PreserveUnknownFieldsKey := Flag(true)] == s.extensions.value
    case XEmbeddedResource => s.extensions.Some? && s.extensions.value[EmbeddedResourceKey := Flag(true)] == s.extensions.value
    case XIntOrString => s.extensions.Some? && s.extensions.value[IntOrStringKey := Flag(true)] == s.extensions.value
    case _ => true
  }

  /** The extension value under `x-kubernetes-validations` is something
      other than a rule list, which the Go type assertion rejects. */
  predicate ValidationsSlotForeign(s: Schema) {
    s.extensions.Some? && ValidationsKey in s.extensions.value
    && !s.extensions.value[ValidationsKey].Validations?
  }

  /** The guard of a marker's `ApplyToSchema` fails on this schema: the
      kind check, MultipleOf's integrality check on an integer schema, or
      the type assertion on an existing `x-kubernetes-validations` value. */
  predicate Rejects(m: Marker, s: Schema) {
    !KindAccepts(RequiredKind(m), s)
    || (m.MultipleOf? && s.typ == "integer" && !IsIntegral(m.multiple))
    || (m.XValidation? && ValidationsSlotForeign(s))
  }

  /** The panic message of a failed guard. */
  function PanicMessage(m: Marker, s: Schema): string {
    if m.Maximum? then "Maximum constraint applied to non-numeric type " + s.typ
    else if m.MultipleOf? && HasNumericType(s) then "cannot apply non-integral MultipleOf validation to integer value"
    else if m.XValidation? then "x-kubernetes-validations does not hold a list of validations"
    else
      var kind := match RequiredKind(m)
        case NumericKind => "a numeric type"
        case StringKind => "a string"
        case ArrayKind => "an array"
        case _ => "an object";
      "must apply " + TypeName(m) + " to " + kind + ", got " + s.typ
  }

  /** What `ApplyToSchema` writes once its guard has passed. */
  function Set(m: Marker, s: Schema): Schema
    requires !Rejects(m, s)
  {
    match m
    case Maximum(v) => s.(max := Some(v))
    case Minimum(v) => s.(min := Some(v))
    case ExclusiveMinimum(b) => s.(exclusiveMin := b)
    case ExclusiveMaximum(b) => s.(exclusiveMax := b)
    case MultipleOf(v) => s.(multipleOf := Some(v))
    case MaxProperties(n) => s.(maxProps := Some(Uint64(n)))
    case MinProperties(n) => s.(minProps := Uint64(n))
    case MaxLength(n) => s.(maxLength := Some(Uint64(n)))
    case MinLength(n) => s.(minLength := Uint64(n))
    case Pattern(p) => s.(pattern := p)
    case MaxItems(n) => s.(maxItems := Some(Uint64(n)))
    case MinItems(n) => s.(minItems := Uint64(n))
    case UniqueItems(b) => s.(uniqueItems := b)
    case Enum(vs) => s.(enumValues := vs)
    case Format(f) => s.(format := f)
    case Type(t) => if s.typ == "object" || s.typ != "value" then s else s.(typ := t)
    case XPreserveUnknownFields => s.(extensions := Some(SetFlag(s.extensions, PreserveUnknownFieldsKey)))
    case XEmbeddedResource => s.(extensions := Some(SetFlag(s.extensions, EmbeddedResourceKey)))
    case XIntOrString => s.(extensions := Some(SetFlag(s.extensions, IntOrStringKey)))
    case XValidation(v) => AppendValidation(s, v)
    case Nullable => s.(nullable := true)
    case Default(v) => s.(default := Some(v))
    case Example(v) => s.(example := Some(v))
    case AltName(_) => s
    case Schemaless => NewSchema().(description := s.description)
    case Required => s
  }

  /** What `ApplyToSchema` does to a schema, or the panic it raises. */
  function Apply(m: Marker, s: Schema): (r: Result<Schema>)
    ensures r.Err? <==> Rejects(m, s)
  {
    if Rejects(m, s) then Err(PanicMessage(m, s)) else Ok(Set(m, s))
  }

  predicate NumericMarker(m: Marker) {
    m.Maximum? || m.Minimum? || m.ExclusiveMaximum? || m.ExclusiveMinimum? || m.MultipleOf?
  }

  predicate CountMarker(m: Marker) {
    m.MaxProperties? || m.MinProperties? || m.MaxLength? || m.MinLength? || m.MaxItems? || m.MinItems?
  }

  predicate ExtensionMarker(m: Marker) {
    m.XPreserveUnknownFields? || m.XEmbeddedResource? || m.XIntOrString? || m.XValidation?
  }

  lemma NumericSetters(m: Marker, s: Schema)
    requires NumericMarker(m) && !Rejects(m, s)
    ensures SameExcept(Set(m, s), s, WrittenField(m).value) && Records(m, Set(m, s))
  {
  }

  lemma UpperCountSetters(m: Marker, s: Schema)
    requires (m.MaxProperties? || m.MaxLength? || m.MaxItems?) && !Rejects(m, s)
    ensures SameExcept(Set(m, s), s, WrittenField(m).value) && Records(m, Set(m, s))
  {
  }

  lemma LowerCountSetters(m: Marker, s: Schema)
    requires (m.MinProperties? || m.MinLength? || m.MinItems?) && !Rejects(m, s)
    ensures SameExcept(Set(m, s), s, WrittenField(m).value) && Records(m, Set(m, s))
  {
  }

  lemma ExtensionSetters(m: Marker, s: Schema)
    requires ExtensionMarker(m) && !Rejects(m, s)
    ensures SameExcept(Set(m, s), s, WrittenField(m).value) && Records(m, Set(m, s))
  {
  }

  lemma AnnotationSetters(m: Marker, s: Schema)
    requires m.Pattern? || m.UniqueItems? || m.Enum? || m.Format?
    requires !Rejects(m, s)
    ensures SameExcept(Set(m, s), s, WrittenField(m).value) && Records(m, Set(m, s))
  {
  }

  lemma ValueSetters(m: Marker, s: Schema)
    requires m.Type? || m.Nullable? || m.Default? || m.Example?
    ensures SameExcept(Set(m, s), s, WrittenField(m).value) && Records(m, Set(m, s))
  {
  }

  /** A setter marker writes its own field, to the marker's value, and no
      other field. */
  lemma SetWritesOneField(m: Marker, s: Schema)
    requires !Rejects(m, s) && WrittenField(m).Some?
    ensures SameExcept(Set(m, s), s, WrittenField(m).value)
    ensures Records(m, Set(m, s))
  {
    if NumericMarker(m) {
      NumericSetters(m, s);
    } else if m.MaxProperties? || m.MaxLength? || m.MaxItems? {
      UpperCountSetters(m, s);
    } else if CountMarker(m) {
      LowerCountSetters(m, s);
    } else if ExtensionMarker(m) {
      ExtensionSetters(m, s);
    } else if m.Pattern? || m.UniqueItems? || m.Enum? || m.Format? {
      AnnotationSetters(m, s);
    } else {
      ValueSetters(m, s);
    }
  }

  /** Type rewrites the type of a "value" schema only, and never an object. */
  lemma TypeRewritesOnlyValue(t: string, s: Schema)
    ensures Apply(Type(t), s) == Ok(if s.typ == "value" then s.(typ := t) else s)
  {
  }

  /** Schemaless replaces the schema by an empty one that keeps only the
      description. */
  lemma SchemalessKeepsDescription(s: Schema)
    ensures Apply(Schemaless, s) == Ok(NewSchema().(description := s.description))
  {
  }

  /** AltName and Required leave the schema alone; Required is read later
      from the message's field list. */
  lemma NoOpMarkers(name: string, s: Schema)
    ensures Apply(AltName(name), s) == Ok(s)
    ensures Apply(Required, s) == Ok(s)
  {
  }

  /** An extension flag marker sets its key to `true` and keeps every other
      key and value. */
  lemma FlagKeepsOtherKeys(m: Marker, s: Schema)
    requires m.XPreserveUnknownFields? || m.XEmbeddedResource? || m.XIntOrString?
    ensures Apply(m, s).Ok?
    ensures var e := Apply(m, s).value.extensions;
      e.Some? && FlagKey(m) in e.value && e.value[FlagKey(m)] == Flag(true)
      && (forall k :: k != FlagKey(m) ==> (k in e.value <==> (s.extensions.Some? && k in s.extensions.value)))
      && (forall k :: k != FlagKey(m) && k in e.value ==> e.value[k] == s.extensions.value[k])
  {
  }

  /** The extension key an extension flag marker sets. */
  function FlagKey(m: Marker): string {
    match m
    case XPreserveUnknownFields => PreserveUnknownFieldsKey
    case XEmbeddedResource => EmbeddedResourceKey
    case XIntOrString => IntOrStringKey
    case _ => ""
  }

  /** `XValidation.ApplyToSchema`: create the map and the list when they
      are absent, then append. */
  function AppendValidation(s: Schema, v: ValidationRule): Schema
    requires !ValidationsSlotForeign(s)
  {
    var ext := if s.extensions.Some? then s.extensions.value else map[];
    var current := if ValidationsKey in ext then ext[ValidationsKey].rules else [];
    s.(extensions := Some(ext[ValidationsKey := Validations(current + [v])]))
  }

  /** Markers applied one after the other, stopping at the first panic. */
  function ApplyAll(ms: seq<Marker>, s: Schema): Result<Schema> {
    if ms == [] then Ok(s)
    else
      match Apply(ms[0], s)
      case Err(e) => Err(e)
      case Ok(s') => ApplyAll(ms[1..], s')
  }

  /** One XValidation step: the rule is appended and nothing else moves. */
  lemma AppendValidationStep(s: Schema, v: ValidationRule)
    requires !ValidationsSlotForeign(s)
    ensures var t := AppendValidation(s, v);
      !ValidationsSlotForeign(t) && t.extensions.Some?
      && ValidationsOf(t) == ValidationsOf(s) + [v]
      && SameExcept(t, s, ExtensionsField)
      && (forall k :: k != ValidationsKey && s.extensions.Some? && k in s.extensions.value ==>
            k in t.extensions.value && t.extensions.value[k] == s.extensions.value[k])
  {
  }

  lemma ApplyXValidation(v: ValidationRule, s: Schema)
    requires !ValidationsSlotForeign(s)
    ensures Apply(XValidation(v), s) == Ok(AppendValidation(s, v))
  {
  }

  /** Repeated XValidation markers accumulate: n applications append n
      rules, in order, and leave every other field and extension key alone. */
  lemma {:induction false} ValidationsAccumulate(vs: seq<ValidationRule>, s: Schema)
    requires !ValidationsSlotForeign(s)
    ensures var r := ApplyAll(seq(|vs|, i requires 0 <= i < |vs| => XValidation(vs[i])), s);
      r.Ok? && ValidationsOf(r.value) == ValidationsOf(s) + vs
      && SameExcept(r.value, s, ExtensionsField)
      && (forall k :: k != ValidationsKey && s.extensions.Some? && k in s.extensions.value ==>
            r.value.extensions.Some? && k in r.value.extensions.value && r.value.extensions.value[k] == s.extensions.value[k])
  {
    var ms := seq(|vs|, i requires 0 <= i < |vs| => XValidation(vs[i]));
    if vs != [] {
      AppendValidationStep(s, vs[0]);
      var s1 := AppendValidation(s, vs[0]);
      ApplyXValidation(vs[0], s);
      assert ApplyAll(ms, s) == ApplyAll(ms[1..], s1);
      ValidationsAccumulate(vs[1..], s1);
      assert ms[1..] == seq(|vs[1..]|, i requires 0 <= i < |vs[1..]| => XValidation(vs[1..][i]));
      assert ValidationsOf(s) + vs == ValidationsOf(s) + [vs[0]] + vs[1..];
    } else {
      assert ApplyAll(ms, s) == Ok(s);
    }
  }

  /** The parts of a schema that give it its structure: the properties,
      the required list and the nested schemas. */
  function Structure(s: Schema): (map<string, SchemaRef>, seq<string>, Option<SchemaRef>, Option<SchemaRef>,
                                  seq<SchemaRef>, seq<SchemaRef>, seq<SchemaRef>, Option<SchemaRef>)
  {
    (s.properties, s.required, s.items, s.additionalProperties, s.oneOf, s.anyOf, s.allOf, s.not)
  }

  /** Every marker but Schemaless leaves the structure of a schema alone;
      Schemaless empties it. */
  lemma MarkersKeepStructure(m: Marker, s: Schema)
    requires Apply(m, s).Ok?
    ensures !m.Schemaless? ==> Structure(Apply(m, s).value) == Structure(s)
    ensures m.Schemaless? ==> Structure(Apply(m, s).value) == Structure(NewSchema())
  {
  }

  /** `ApplyToSchema`, in place: on success the schema becomes `Apply`'s
      result; a panic leaves it as it was (every guard runs before any
      write). */
  method ApplyToSchema(m: Marker, o: SchemaObject) returns (r: Result<bool>)
    modifies o
    ensures Apply(m, old(o.value)).Ok? ==> r.Ok? && o.value == Apply(m, old(o.value)).value
    ensures Apply(m, old(o.value)).Err? ==> r == Err(Apply(m, old(o.value)).error) && o.value == old(o.value)
  {
    var s := o.value;
    if Rejects(m, s) {
      return Err(PanicMessage(m, s));
    }
    o.value := Set(m, s);
    r := Ok(true);
  }
}
