/** The part of the OpenAPI 3.0.1 Schema Object (section 4.7.24 of the
    OpenAPI Specification) that the generator builds, in the shape of the
    Go library's `openapi3.Schema` record, and the library's constructors
    and `With…` setters used by the generator and the markers. */
module OpenApi {
  import opened Wrappers

  /** A JSON value: the payload of `enum`, `default` and `example`. */
  datatype JsonValue =
    | JNull
    | JBool(b: bool)
    | JNumber(n: real)
    | JString(s: string)
    | JArray(elems: seq<JsonValue>)
    | JObject(members: map<string, JsonValue>)

  /** One entry of `x-kubernetes-validations`. */
  datatype ValidationRule = ValidationRule(rule: string, message: string, messageExpression: string)

  /** A value of the extension map: the generator only stores booleans and
      lists of validation rules there. */
  datatype Extension = Flag(flag: bool) | Validations(rules: seq<ValidationRule>)

  const PreserveUnknownFieldsKey := "x-kubernetes-preserve-unknown-fields"
  const EmbeddedResourceKey := "x-kubernetes-embedded-resource"
  const IntOrStringKey := "x-kubernetes-int-or-string"
  const ValidationsKey := "x-kubernetes-validations"

  /** `openapi3.Schema`. `typ == ""` is an unset type; `None` is a nil
      pointer; `extensions == None` is a nil extension map. */
  datatype Schema = Schema(
    typ: string,
    format: string,
    description: string,
    enumValues: seq<JsonValue>,
    default: Option<JsonValue>,
    example: Option<JsonValue>,
    nullable: bool,
    min: Option<real>,
    max: Option<real>,
    exclusiveMin: bool,
    exclusiveMax: bool,
    multipleOf: Option<real>,
    minLength: nat,
    maxLength: Option<nat>,
    pattern: string,
    minItems: nat,
    maxItems: Option<nat>,
    uniqueItems: bool,
    minProps: nat,
    maxProps: Option<nat>,
    items: Option<SchemaRef>,
    properties: map<string, SchemaRef>,
    required: seq<string>,
    additionalProperties: Option<SchemaRef>,
    oneOf: seq<SchemaRef>,
    anyOf: seq<SchemaRef>,
    allOf: seq<SchemaRef>,
    not: Option<SchemaRef>,
    extensions: Option<map<string, Extension>>)

  /** `openapi3.SchemaRef`: a `$ref` string (empty when inline) and the
      schema value (`None` when only the reference is emitted). */
  datatype SchemaRef = SchemaRef(ref: string, value: Option<Schema>)

  /** `openapi3.NewSchema()`: every field at its zero value. */
  function NewSchema(): (s: Schema)
    ensures s.typ == "" && s.description == "" && s.properties == map[] && s.extensions == None
  {
    Schema("", "", "", [], None, None, false, None, None, false, false, None,
           0, None, "", 0, None, false, 0, None, None, map[], [], None, [], [], [], None, None)
  }

  function TypedSchema(typ: string, format: string): (s: Schema)
    ensures s == NewSchema().(typ := typ, format := format)
  {
    NewSchema().(typ := typ, format := format)
  }

  function NewBoolSchema(): Schema { TypedSchema("boolean", "") }
  function NewFloat64Schema(): Schema { TypedSchema("number", "") }
  function NewIntegerSchema(): Schema { TypedSchema("integer", "") }
  function NewInt32Schema(): Schema { TypedSchema("integer", "int32") }
  function NewInt64Schema(): Schema { TypedSchema("integer", "int64") }
  function NewStringSchema(): Schema { TypedSchema("string", "") }
  function NewBytesSchema(): Schema { TypedSchema("string", "byte") }
  function NewArraySchema(): Schema { TypedSchema("array", "") }
  function NewObjectSchema(): Schema { TypedSchema("object", "") }

  /** `s.NewRef()`: an inline reference to `s`. */
  function NewRef(s: Schema): (r: SchemaRef)
    ensures r.ref == "" && r.value == Some(s)
  {
    SchemaRef("", Some(s))
  }

  /** `openapi3.NewArraySchema().WithItems(item)`. */
  function ArrayOf(item: Schema): (s: Schema)
    ensures s.typ == "array" && s.items == Some(NewRef(item))
  {
    NewArraySchema().(items := Some(NewRef(item)))
  }

  function NewOneOfSchema(schemas: seq<Schema>): (s: Schema)
    ensures |s.oneOf| == |schemas| && forall i :: 0 <= i < |schemas| ==> s.oneOf[i] == NewRef(schemas[i])
  {
    NewSchema().(oneOf := Refs(schemas))
  }

  function NewAnyOfSchema(schemas: seq<Schema>): (s: Schema)
    ensures |s.anyOf| == |schemas| && forall i :: 0 <= i < |schemas| ==> s.anyOf[i] == NewRef(schemas[i])
  {
    NewSchema().(anyOf := Refs(schemas))
  }

  /** `getSchemaRefs`: inline references to each schema, in order. */
  function Refs(schemas: seq<Schema>): (r: seq<SchemaRef>)
    ensures |r| == |schemas| && forall i :: 0 <= i < |schemas| ==> r[i] == NewRef(schemas[i])
  {
    seq(|schemas|, i requires 0 <= i < |schemas| => NewRef(schemas[i]))
  }

  /** The references grow as the loop of `getSchemaRefs` appends them:
      one more schema adds one more inline reference that holds it. */
  lemma RefsAppend(schemas: seq<Schema>, s: Schema)
    ensures Refs([]) == []
    ensures Refs(schemas + [s]) == Refs(schemas) + [SchemaRef("", Some(s))]
  {
    assert (schemas + [s])[|schemas|] == s;
  }

  /** The extension map after `key` has been set to `true`, creating the
      map when it is nil. */
  function SetFlag(ext: Option<map<string, Extension>>, key: string): (r: map<string, Extension>)
    ensures key in r && r[key] == Flag(true)
    ensures forall k :: k != key ==> (k in r <==> (ext.Some? && k in ext.value))
    ensures forall k :: k != key && k in r ==> r[k] == ext.value[k]
  {
    match ext
    case None => map[key := Flag(true)]
    case Some(m) => m[key := Flag(true)]
  }

  /** The validation rules stored in a schema's extension map (none when
      the map or the key is absent). */
  function ValidationsOf(s: Schema): seq<ValidationRule> {
    if s.extensions.Some? && ValidationsKey in s.extensions.value
       && s.extensions.value[ValidationsKey].Validations?
    then s.extensions.value[ValidationsKey].rules
    else []
  }

  /** `*openapi3.Schema`: the mutable schema record that markers update in
      place. */
  class SchemaObject {
    var value: Schema

    constructor (s: Schema)
      ensures value == s
    {
      value := s;
    }

    /** `o.WithProperty(name, s)`: the property map keyed by name, a later
        value replacing an earlier one. */
    method WithProperty(name: string, s: Schema)
      modifies this
      ensures value == old(value).(properties := old(value).properties[name := NewRef(s)])
    {
      value := value.(properties := value.properties[name := NewRef(s)]);
    }
  }
}
