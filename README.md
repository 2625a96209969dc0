# protoc-gen-openapi core, modelled in Dafny

protoc-gen-openapi is a protoc plugin. From the descriptors of a set of
proto files it emits OpenAPI 3.0.1 component schemas, one per message and
per enum. This project models its schema core and proves properties of
that model:

- **The plugin parameter string.** `extractParams` turns it into a
  key/value map and `parseParameters` turns the map into the generation
  options (module `Options`, file `options.dfy`). This part is
  imperative: `GenerationOptions` is a class whose fields the methods
  update, and each method is proved against a function over the old
  options.
- **Leading comments** (module `Comments`). `parseComments` splits them
  into description text and `+kubebuilder:` directive rules. Also here:
  exclusion markers (`$hide_from_docs`, `$hide`, `@exclude`), ignored
  kube markers and single-line descriptions. The Go `strings` functions
  these use are in module `GoStrings`.
- **The marker catalog** and its registration with the controller-tools
  marker registry (modules `Registration` and `Validation`).
- **What each validation marker does to a schema** (`ApplyToSchema`,
  module `Constraints`) and how a rule list is run over a schema, looked
  up in the registry (`ApplyRulesToSchema`, `GetSchemaType`,
  `IsRequired`).
- **Schema generation** (module `Generator`):
  - the schema of a message, a field and an enum;
  - the fixed schemas of the special well-known types;
  - the reference and naming rules;
  - the oneof emulation.

  Modules `MessageFacts`, `FieldFacts` and `OneOfMeaning` state what
  these promise. `OneOfMeaning` gives the `not`/`anyOf`/`oneOf`
  emulation a meaning and proves it accepts an object exactly when at
  most one field of each oneof is present.

Schemas are values (`OpenApi.Schema`, `OpenApi.SchemaRef`). The Go code
mutates a `*openapi3.Schema` in place; the model uses a
`SchemaObject` class holding one `Schema` value. Each mutating method
(`ApplyToSchema`, `ApplyRulesToSchema`, the field loop of
`generateMessageSchema`) is proved equal to a pure function over the old
value. A Go panic is an `Err` result.

The marker grammar of controller-tools (`Registry.Lookup` and
`Definition.Parse`) is the function pair `Validation.Grammar`, a
parameter of the model. Go map iteration order is an explicit `order`
parameter wherever the outcome can depend on it.

As written, openapiGenerator.go:427-446 interleaves the field prologue
of `generateMessageSchema` with the proto3-optional test: `repeated`,
`fieldName`, `fieldDesc` and `fieldRules` are declared inside the
branches that use them later. The model follows the evident order:

1. compute the field's name, description and rules;
2. record oneof membership for every field that has a oneof index;
3. add the field to `required` unless it is a proto3 `optional` field,
   and otherwise only when its rules hold a Required marker;
4. look up the Type marker and build the property.

## Model

| member | source | states |
|---|---|---|
| GoStrings.TrimSpace | openapiGenerator.go:627 | the result is a slice of the input with only white space cut from each end, and it neither starts nor ends with white space |
| GoStrings.TrimSpaceIdempotent | openapiGenerator.go:714 | trimming an already trimmed comment again, as `shouldNotRenderDesc` does, changes nothing |
| GoStrings.TrimRightSpaces | openapiGenerator.go:702 | the result is a prefix of the line followed only by space characters, and does not end in a space |
| GoStrings.Index | options.go:89 | -1 exactly when the separator never occurs, otherwise its first occurrence |
| GoStrings.JoinSplit | openapiGenerator.go:663 | re-joining the pieces of a split gives the original string back |
| GoStrings.SplitJoin | options.go:84 | splitting a join on a one-character separator that no piece contains gives the pieces back |
| GoStrings.SplitPiecesLackSeparator | options.go:84 | no piece of a split contains the separator |
| GoStrings.Fields | openapiGenerator.go:634 | every word is non-empty and free of white space; there are none exactly when the text is all white space; the words written one after the other are the text with its white space removed |
| GoStrings.FieldsOfJoin | openapiGenerator.go:634 | joining words with single spaces and taking the fields again gives the same words |
| GoStrings.JoinedWordsShape | openapiGenerator.go:634 | a word list joined with single spaces has no other white space, none at either end and no double space |
| Options.ExtractParams | options.go:82-97 | the loop builds the segment fold `ParamsOf` whose keys, values and overwriting the lemmas below state |
| Options.SegmentParts | options.go:89-93 | a segment with `=` is its key, `=` and value, where the key holds no `=`; a segment without `=` is a key with the empty value |
| Options.SegmentOfPair | options.go:89-93 | `key=value` with a key lacking `=` splits back into that key and value, even when the value holds `=` |
| Options.ParamKeys | options.go:84-94 | the keys are exactly the keys of the non-empty segments |
| Options.LastSegmentWins | options.go:84-94 | a key's value is that of its last segment |
| Options.NoCommaInParams | options.go:82-97 | no key or value holds a comma and no key holds `=` |
| Options.ParamsOfRendered | options.go:82-97 | a comma-joined list of `key=value` pairs reads back as the map of those pairs, later pairs winning |
| Options.NoParams | options.go:82-97 | the empty parameter string gives the empty map |
| Options.ParseFormattedBool | options.go:30 | `true` and `false` as Go formats them parse back to themselves |
| Options.KeyNamedName | options.go:29-73 | each option is found by its own parameter name |
| Options.KeyNameInjective | options.go:29-73 | no two options share a parameter name |
| Options.UnknownName | options.go:72-73 | a name reaches the final branch exactly when it is no option's name |
| Options.SetOptionMeaning | options.go:29-74 | one key succeeds exactly when it is known and, for a boolean option, its value parses, and then it sets that option, as the reference reading does, and nothing else |
| Options.BareFlag | options.go:44-65 | a boolean option given without a value is rejected; `yaml` and `additional_empty_schema` accept it |
| Options.EmptySchemaNames | options.go:64-65 | `additional_empty_schema` reads back a `+`-joined list of names lacking `+` |
| Options.ParseStepMeaning | options.go:29-74 | one loop pass either rejects the key or value, or sets its option as the reference reading does and then fails only at the per-file check of a `single_file` key |
| Options.ParseFromOutcome | options.go:28-77 | the loop from any position succeeds only when every remaining key is accepted, and then gives the reference reading of those keys |
| Options.ParseParametersOutcome | options.go:26-78 | in any iteration order, success means every key is accepted and every option takes its own key's value; with acceptable keys the only failure is the per-file check, which needs `single_file` |
| Options.UnknownKeyRejected | options.go:72-73 | an unknown key fails the parse in every iteration order |
| Options.PerFileClashDependsOnOrder | options.go:35-43 | as written, `per_file=true` and `single_file=true` fail in one iteration order and succeed, with both set, in the other |
| Options.PerFileClashParameters | options.go:82-97 | the parameter string `per_file=true,single_file=true` gives the map of that example |
| Options.SetFromOutcome | options.go:28-75 | the loop without the per-file check succeeds exactly when every key is accepted, and then gives the reference reading |
| Options.ParseCheckedMeaning | options.go:26-78 | the corrected parse fails exactly when a key or value is not accepted or both per-file and single-file end up set, and otherwise gives the reference reading |
| Options.ParseCheckedOrderIndependent | options.go:26-78 | the corrected parse gives the same outcome and options for any two iteration orders |
| Options.GenerationOptions.constructor | options.go:20-24 | new options have descriptions on and everything else off or empty |
| Options.GenerationOptions.Set | options.go:29-74 | one key updates the options as `SetOption` says; on an error the options are unchanged |
| Options.GenerationOptions.ParseParameters | options.go:26-78 | the options and error after `parseParameters`, as written, with the map visited in the given order |
| Options.GenerationOptions.ParseParametersChecked | options.go:26-78 | the options and error after the corrected `parseParameters` |
| Comments.ExclusionNeedsOnlyTwoMarkers | openapiGenerator.go:713-721 | a text is excluded exactly when its trimmed form starts with `$hide` or `@exclude` |
| Comments.HasAnyPrefixIff | openapiGenerator.go:713-721 | the exclusion scan finds a marker exactly when some marker is a prefix |
| Comments.IgnoredIff | openapiGenerator.go:828-834 | a directive is ignored exactly when it contains one of the configured substrings; with none configured, nothing is ignored |
| Comments.StripOneSpace | openapiGenerator.go:699-701 | a kept line loses at most one leading space |
| Comments.RenderLine | openapiGenerator.go:686-702 | an excluded or directive line leaves no text; otherwise the text is the line without one leading space and without trailing spaces |
| Comments.LineOutcome | openapiGenerator.go:686-702 | each of the three branches (excluded, directive, text): the text the line adds and the rule it adds, which for a directive is its trimmed form unless ignored |
| Comments.ParseLines | openapiGenerator.go:682-703 | the inner loop yields the block's text and its rules in line order |
| Comments.ParseBlock | openapiGenerator.go:674-706 | a hidden block adds nothing; any other adds its separator, its lines' text and its rules |
| Comments.ParseBlocks | openapiGenerator.go:673-707 | the outer loop yields the text of the blocks that are not hidden and their rules, in order |
| Comments.ParseComments | openapiGenerator.go:661-711 | the description is the trimmed rendered text and the rules are those of the blocks that are not hidden |
| Comments.RulesAreDirectives | openapiGenerator.go:661-711 | every rule is a trimmed `+kubebuilder:` directive that is not excluded and matches no ignored substring |
| Comments.BlocksRulesAppend | openapiGenerator.go:673-707 | a block's rules do not depend on its position |
| Comments.HiddenBlockAddsNoRules | openapiGenerator.go:674-676 | a hidden block drops its directives along with its text |
| Comments.HiddenBlockAddsNoText | openapiGenerator.go:674-676 | a hidden block adds no text, not even a separator |
| Comments.RenderLinesIsJoin | openapiGenerator.go:680-706 | a block's text is its lines' texts joined by newlines, so excluded and directive lines leave empty lines |
| Comments.GenerateDescription | openapiGenerator.go:618-643 | empty without descriptions; the `parseComments` text in multi-line mode; otherwise empty for a first block starting with `$`, or else the first block's words single-spaced |
| Descriptors.AbsoluteNameIdentifiesPath | openapiGenerator.go:611-614 | within one package, and with no dot inside a name, two descriptors have the same absolute name exactly when they have the same name path |
| Descriptors.RelativeNameShortExactlyInPackage | openapiGenerator.go:819-826 | the relative name is the dotted name exactly when the descriptor is in the current package, and the absolute name exactly when it is not |
| Descriptors.AbsoluteIsPackageDotRelative | openapiGenerator.go:819-826 | the absolute name is the package, a dot and the name relative to that package, and every relative name is one of the two forms |
| MessageFacts.PropertyNamesAreJsonNames | openapiGenerator.go:815-817 | the property names of a message are exactly its fields' JSON names |
| OpenApi.RefsAppend | openapiGenerator.go:505-511 | each schema appends one inline reference holding it, in order, starting from none |
| OpenApi.SchemaObject.WithProperty | openapiGenerator.go:454 | the property is stored under its name, replacing an earlier one, and nothing else changes |
| Generator.MustApply | openapiGenerator.go:645-654 | with kube markers disabled the schema is untouched; otherwise the rule run, failing when the run does not succeed |
| Generator.MustApplyRules | openapiGenerator.go:645-654 | in place, the schema becomes `MustApply`'s result, or the panic is reported |
| Generator.WrappersAreNullable | openapiGenerator.go:45-81 | every wrapper type of `wrappers.proto` has a nullable schema |
| Generator.IntegerWrapperBounds | openapiGenerator.go:45-81 | the 32-bit integer wrappers are bounded by their protobuf type's range |
| Generator.DynamicTypesPreserveFields | openapiGenerator.go:45-81 | Struct, Any and Value accept any content and keep unknown fields |
| Generator.SoloInt64Schema | openapiGenerator.go:406-413 | an int64 integer flagged as int-or-string |
| Generator.BuildCustomSchemas | openapiGenerator.go:173-194 | the keys are the special types plus the injected names; an injected name maps to the preserving empty object, even over a special type |
| Generator.AddPreserving | openapiGenerator.go:182-191 | each injected name maps to the preserving empty object; the other keys keep their schemas |
| Generator.SoloSchemaForMarkerType | openapiGenerator.go:493-503 | `object` and `value` give schemas that keep unknown fields; any other type panics |
| Generator.MarkerTypesAreSpecialTypes | openapiGenerator.go:493-503 | the two marker types give the Struct and Value schemas |
| Generator.SchemaIfRepeated | openapiGenerator.go:513-518 | a repeated field is an array of the element schema; any other keeps it |
| Generator.GenerateEnumSchema | openapiGenerator.go:576-609 | the enum schema `EnumSchema`; `FieldFacts.EnumSchemaShape` states its shape |
| Generator.NewProtoOneOfSchema | openapiGenerator.go:551-569 | the loop builds `ProtoOneOf`; `OneOfMeaning` states what it means |
| Generator.CollectOneOfs | openapiGenerator.go:469-474 | in any key order, the loop panics exactly when some oneof index falls outside the slice, and otherwise gives each position its oneof's schemas |
| Generator.AddProtoOneOfs | openapiGenerator.go:467-488 | in place, the schema becomes `PlaceOneOfs`'s result, or the panic is reported |
| Generator.MessageSchema | openapiGenerator.go:415-419 | a map entry gets no schema, and every other message gets one |
| Generator.GenerateMessageSchema | openapiGenerator.go:415-491 | the method builds the schema `MessageSchema` describes, whose shape `MessageFacts` states |
| Generator.CompleteMessage | openapiGenerator.go:425-490 | fields, required list and oneofs added in place give `MessageBody` |
| Generator.AddFields | openapiGenerator.go:428-461 | the field loop, in place, gives the fold `FieldsFrom` over the fields |
| Generator.AddField | openapiGenerator.go:428-461 | one pass, in place, gives `FieldStep` |
| Generator.FieldProperty | openapiGenerator.go:448-460 | a field's property: its Type marker's schema, or its type's schema, with the field rules applied |
| Generator.FieldSchemaRef | openapiGenerator.go:802-813 | the field's schema with the reference `RefFor` gives |
| Generator.FieldTypeRef | openapiGenerator.go:802-813 | the method computes `FieldSchemaRef` |
| Generator.FieldSchema | openapiGenerator.go:794-796 | every field schema carries the field's own description |
| Generator.FieldType | openapiGenerator.go:723-799 | the method computes `FieldSchema`; `FieldFacts` states its cases |
| Generator.MessageFieldType | openapiGenerator.go:762-780 | the message case of `fieldType`: a custom schema with the message's description (`generateSoloMessageSchema`, openapiGenerator.go:399-404), a map or a message |
| MessageFacts.FieldStepEffect | openapiGenerator.go:428-461 | one successful pass adds the field's property, its oneof membership and, when required, its name |
| MessageFacts.FieldStepProperty | openapiGenerator.go:448-460 | a field's property is its Type marker's schema when the rules hold one, otherwise its type's |
| MessageFacts.FieldStepFails | openapiGenerator.go:428-461 | a field fails the loop exactly when its Required scan (unless proto3 optional), its Type scan or its property fails |
| MessageFacts.FieldsFromEffect | openapiGenerator.go:428-461 | a successful loop adds one property per field, the required names in field order and each oneof's names in field order |
| MessageFacts.MessageBodyShape | openapiGenerator.go:428-465 | one property per field name; the required list set only when some field is required; without the oneof emulation nothing else changes |
| MessageFacts.PlaceOneOfsShape | openapiGenerator.go:467-488 | only `oneOf` and `allOf` are written; failure exactly when an index falls outside the slice; a single oneof becomes `oneOf` |
| MessageFacts.PlaceManyOneOfs | openapiGenerator.go:481-486 | several oneofs are appended to `allOf` in index order, one `oneOf` schema each |
| MessageFacts.OneOfPlacement | openapiGenerator.go:467-488 | the message fails unless its oneof indexes are 0 up to their number, and then each oneof lists its fields in field order |
| MessageFacts.FieldGroups | openapiGenerator.go:438-441 | the groups collected are, by index, the names of each oneof's fields in field order |
| MessageFacts.MessageRulesKeepEmptyStructure | openapiGenerator.go:420-423 | message rules add no property, required entry or nested schema; with kube markers disabled they change nothing |
| MessageFacts.MessageSchemaShape | openapiGenerator.go:415-491 | a message that is not a map entry gets exactly one property per field name and its required fields in order, with no nested item, value, `anyOf` or `not` schema |
| OneOfMeaning.RequiringOneField | openapiGenerator.go:553-557 | a schema requiring one field holds exactly when it is present |
| OneOfMeaning.NoneOfTheFields | openapiGenerator.go:559-564 | the first branch holds exactly when no field of the oneof is present |
| OneOfMeaning.AtMostOneField | openapiGenerator.go:551-569 | exactly one branch holds exactly when at most one field of the oneof is present |
| OneOfMeaning.OneOfSchemaMeaning | openapiGenerator.go:551-569 | the emulation wrapped in `oneOf` accepts exactly the objects with at most one of the fields present |
| OneOfMeaning.MessageOneOfsMeaning | openapiGenerator.go:467-488 | a message schema's `oneOf` and `allOf` accept exactly when no oneof of the message has two fields present |
| FieldFacts.ScalarTypes | openapiGenerator.go:727-760 | floating kinds are numbers, bool is boolean, string and bytes are strings, every integer kind is an integer |
| FieldFacts.ScalarFormats | openapiGenerator.go:727-760 | bytes are base64, signed 32-bit kinds int32, uint32 bounded by its range, 64-bit kinds int-or-string unless native integers are asked for |
| FieldFacts.CustomSchemaWins | openapiGenerator.go:399-404 | a custom schema wins over every other case, map entries included, and `generateSoloMessageSchema` gives it the message's description |
| FieldFacts.MapFieldIsObject | openapiGenerator.go:767-777 | a map field is an object whose additional properties are the value field's schema or its reference |
| FieldFacts.RefRule | openapiGenerator.go:802-813 | exactly a top-level message being generated is referenced, by its absolute component name |
| FieldFacts.DisabledMarkersLeaveFields | openapiGenerator.go:448-460 | with kube markers disabled a field's property is its type's schema or its Type marker's |
| FieldFacts.EnumSchemaShape | openapiGenerator.go:576-609 | a described string listing the value names in order, or, for int-or-string enums, nothing but the int-or-string flag |
| Constraints.Uint64 | pkg/markers/constraints.go:99-104 | a count is converted as Go converts `int64` to `uint64`: unchanged when non-negative, a negative `int64` plus 2^64, and always congruent to the input modulo 2^64 |
| Constraints.Apply | pkg/markers/constraints.go:17-340 | a marker panics exactly when its guard fails |
| Constraints.SetWritesOneField | pkg/markers/constraints.go:17-312 | a setter marker writes the marker's value into its own field and no other |
| Constraints.TypeRewritesOnlyValue | pkg/markers/constraints.go:184-190 | Type rewrites only a `value` schema's type |
| Constraints.SchemalessKeepsDescription | pkg/markers/constraints.go:327-333 | Schemaless leaves an empty schema with only the description |
| Constraints.NoOpMarkers | pkg/markers/constraints.go:316-340 | AltName and Required leave the schema alone |
| Constraints.FlagKeepsOtherKeys | pkg/markers/constraints.go:206-246 | an extension flag sets its key to `true` and keeps every other key and value |
| Constraints.AppendValidationStep | pkg/markers/constraints.go:259-271 | one XValidation rule is appended and nothing else moves |
| Constraints.ApplyXValidation | pkg/markers/constraints.go:259-271 | XValidation on a schema whose validations slot is a rule list or empty appends its rule |
| Constraints.ValidationsAccumulate | pkg/markers/constraints.go:259-271 | n XValidation markers append n rules in order and leave every other field and key alone |
| Constraints.MarkersKeepStructure | pkg/markers/constraints.go:17-340 | every marker but Schemaless keeps a schema's structure; Schemaless empties it |
| Constraints.ApplyToSchema | pkg/markers/constraints.go:17-340 | in place: success writes `Apply`'s result, a panic leaves the schema as it was |
| Registration.RegisterEntry | pkg/markers/register.go:46-54 | registration fails exactly for an unknown target; help is added only after success and only when present |
| Registration.RegisterEntriesFails | pkg/markers/register.go:86-94 | registering the list fails exactly when some entry has an unknown target |
| Registration.RegisterEntriesStores | pkg/markers/register.go:86-94 | after success every entry is stored under its target and name, and untouched keys keep their values |
| Registration.DefinitionWithHelp.constructor | pkg/markers/register.go:56-60 | a definition object holds its definition and help |
| Registration.DefinitionWithHelp.WithHelp | pkg/markers/register.go:41-44 | sets the help, keeps the definition and returns the receiver |
| Registration.DefinitionWithHelp.Register | pkg/markers/register.go:46-54 | the registry store after one definition and its help, unchanged on an error |
| Registration.RegisterAll | pkg/markers/register.go:86-94 | registers every definition in order; on success the store is their fold, and an error is reported when one fails |
| Registration.IgnorePattern | pkg/markers/register.go:28-32 | no pattern exactly when no substrings are configured |
| Registration.PatternAlternatives | pkg/markers/register.go:28-32 | the pattern is a non-capturing group whose alternatives are exactly the substrings |
| Registration.NewRegistry | pkg/markers/register.go:27-39 | a fresh registry with the ignore pattern and every definition registered, or the registration error |
| Validation.MadeWithPrefixNamesDistinct | pkg/markers/register.go:71-83 | values of pairwise different Go types give definitions with pairwise different names |
| Validation.MustMakeAllWithPrefix | pkg/markers/register.go:71-83 | one fresh definition object per value holding `MadeWithPrefix`'s entries |
| Validation.FieldOnlyMarkers | pkg/markers/validation.go:80-96 | the field-only marker objects, only Required carrying help |
| Validation.ValidationIshMarkers | pkg/markers/validation.go:101-104 | the validation-ish marker objects, freshly allocated |
| Validation.TypeTargetCopies | pkg/markers/validation.go:113-122 | a new object per validation marker, retargeted at types, leaving the originals alone |
| Validation.Init | pkg/markers/validation.go:110-126 | the catalog is the validation markers, their type copies, then the field-only and validation-ish markers |
| Validation.CatalogLayout | pkg/markers/validation.go:110-126 | 48 entries; each validation marker registered for fields and again for types under the same name |
| Validation.FieldOnlyMarkersOnlyForFields | pkg/markers/validation.go:110-126 | no type-target entry has the name of a field-only marker |
| Validation.CatalogRegisters | pkg/markers/validation.go:110-126 | the whole catalog registers into an empty registry, each entry under its target and name |
| Validation.PrototypeTypeNamesDistinct | pkg/markers/validation.go:48-76 | the twenty validation markers have pairwise different Go type names |
| Validation.CatalogKeysDistinct | pkg/markers/validation.go:110-126 | no two of the 48 catalog entries share a target and a name |
| Validation.CatalogStoresOwnDefinitions | pkg/markers/validation.go:110-126 | after registering the catalog, each entry's target and name hold that entry's own definition |
| Registration.RegisterEntriesValues | pkg/markers/register.go:86-94 | an entry that no later entry shadows is the definition stored under its target and name |
| Validation.ApplyRulesIsApplyAll | pkg/markers/validation.go:139-160 | when every rule resolves to a marker, running the rules is applying those markers in order |
| Validation.ApplyRulesConcat | pkg/markers/validation.go:139-160 | rules run in order, and an error in the first list stops before the second |
| Validation.RulesKeepEmptyStructure | pkg/markers/validation.go:139-160 | rules never give structure to a schema without any |
| Validation.ApplyRulesToSchema | pkg/markers/validation.go:139-160 | in place, the schema and status are those of `ApplyRules` |
| Validation.MustStatus | pkg/markers/validation.go:128-137 | every returned error becomes a panic, and success stays success |
| Validation.MustApplyRulesToSchema | pkg/markers/validation.go:128-137 | the same run as `ApplyRulesToSchema`, with a returned error turned into a panic |
| Validation.GetSchemaType | pkg/markers/validation.go:162-180 | the type of the first Type rule, or empty when there is none; it panics exactly at an unresolvable rule before it |
| Validation.IsRequired | pkg/markers/validation.go:182-195 | true at the first Required rule, false when there is none; it panics exactly when an earlier rule has no field definition |

## Left out

- File output is not modelled: the YAML or JSON rendering, per-file or
  single-file assembly, the document header and which files are
  written. Only the schema values are modelled.
- main.go is not part of this model. That covers plugin I/O, the
  request and response, the command-line flags and main.go's own copy
  of `extractParams`.
- Regular expressions are treated as literal substrings. The ignored
  marker pattern is matched as a plain search for any of the configured
  substrings. `Registration.PatternAlternatives` gives the pattern's
  shape only for substrings without `|`.
- Registration.NewRegistry: always returns a registry. Go's
  `regexp.MustCompile` (pkg/markers/register.go:31) panics when the
  configured substrings do not form a valid pattern, for instance a
  lone `(`; regular-expression syntax is not modelled.
- The controller-tools marker grammar is the uninterpreted parameter
  `Grammar`: `Lookup` and `Parse` are functions passed in.
  `RegisterDefinition` stands in for `markers.Registry.Register`, which
  is assumed to fail only on an unknown target.
- NaN and infinity do not arise. Marker numbers are Dafny `real`s, so
  `isIntegral` is only tested on finite values.
- List order replaces Go map iteration order. In `parseParameters` the
  order is an explicit parameter and `Enumerates` says it visits each
  key once. In the oneof slice it is proved not to matter. The
  special-type copy loop of `buildCustomSchemasByMessageName` is a map
  union.
- Aliasing between schema objects is not modelled: each `SchemaObject`
  holds its own value. A schema that Go reaches through two pointers is
  two equal values here, and a later write through one pointer is not
  seen through the other.
- Cyclic message graphs cannot be built: descriptors are well-founded
  datatypes.
- Group fields (`TYPE_GROUP`) are not modelled.
- `strconv.ParseBool` is modelled as its twelve spellings. Go's error
  values are reduced to their messages.
- Several methods are split out of larger Go functions, with the same
  behaviour: `Comments.ParseLines`, `Comments.ParseBlock`,
  `Comments.ParseBlocks`, `Generator.AddFields`, `Generator.AddField`,
  `Generator.FieldProperty`, `Generator.CollectOneOfs`,
  `Generator.MessageFieldType`, `Validation.TypeTargetCopies` and
  `Generator.AddPreserving`. No Go function corresponds to them one for
  one.
- OneOfMeaning.Holds: reads only `required`, `not`, `anyOf`, `oneOf`
  and `allOf`. It does not stand for full JSON Schema validation.
- Validation.FieldOnlyMarkers: does not state that the six objects are
  newly allocated. Stating it together with their entries made the
  proof too expensive; nothing in the model relies on it.
- Validation.Init: does not state that the catalog objects are fresh
  or distinct. Only their entries are stated.
- Descriptors.DottedName and the `openapi3` constructors come from
  libraries (`protomodel`, kin-openapi) that are not part of this model.
  They are written as their documented results.
- The rest of openapiGenerator.go is not modelled. That includes
  document assembly, file naming and package collection.
- Descriptors.RelativeName: compares packages by name, where Go compares
  the `*PackageDescriptor` pointers (openapiGenerator.go:821). Two
  distinct descriptors of one package name would count as the same
  package here.
- Constraints.PanicMessage: the panic texts are approximate. The
  non-integral MultipleOf text leaves out the `(%v)` value, because Go's
  float formatting is not modelled. A validations slot holding a foreign
  value fails Go's type assertion with a runtime message; the model
  writes its own text.

## Findings

| source | as written | input that shows it | evidently intended | confidence | as-written member | corrected member |
|---|---|---|---|---|---|---|
| options.go:35-43 | the per-file check runs inside the loop over the parameter map, right after `single_file` is read, so it sees `per_file` only when the random map order has already visited it | `per_file=true,single_file=true`: it fails when `per_file` is visited first and succeeds with both options set when `single_file` is | `per_file` and `single_file` are mutually exclusive whatever the order, so the check should run once after every key | not executed | Options.PerFileClashDependsOnOrder | Options.ParseCheckedOrderIndependent |
