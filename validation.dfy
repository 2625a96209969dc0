/** The marker catalog and the rule appliers of pkg/markers/validation.go.
    controller-tools' marker grammar (`Registry.Lookup` and
    `Definition.Parse`) is not part of this model: it enters as the pair
    of functions `Grammar`. */
module Validation {
  import opened Wrappers
  import opened GoStrings
  import opened OpenApi
  import opened Constraints
  import opened Registration

  /** The prefix every directive line carries. */
  const Kubebuilder := "+kubebuilder:"

  /** The prefix `IsRequired` looks for. */
  const RequiredPrefix := "+kubebuilder:validation:Required"

  /** What `Definition.Parse` yields: a value of a schema-marker type, or a
      value of some other Go type (named). */
  datatype Parsed = MarkerValue(marker: Marker) | OtherValue(typeName: string)

  /** controller-tools' `Lookup(rule, target)` and `Parse(rule)`. */
  datatype Grammar = Grammar(
    lookup: (string, Target) -> Option<Definition>,
    parse: (Definition, string) -> Result<Parsed>)

  // ---------------------------------------------------------------------
  // The catalog.

  const ValidationPrefix := "kubebuilder:validation"

  /** The values listed in `ValidationMarkers`, in order. */
  const ValidationPrototypes: seq<Marker> := [
    Maximum(0.0), Minimum(0.0), ExclusiveMaximum(false), ExclusiveMinimum(false),
    MultipleOf(0.0), MinProperties(0), MaxProperties(0),
    MaxLength(0), MinLength(0), Pattern(""),
    MaxItems(0), MinItems(0), UniqueItems(false),
    Enum([]), Format(""), Type(""), XPreserveUnknownFields, XEmbeddedResource,
    XIntOrString, XValidation(ValidationRule("", "", ""))]

  /** What `mustMakeAllWithPrefix` produces for some values: one
      definition per value, in order, named after its Go type. */
  function MadeWithPrefix(prefix: string, target: Target, objs: seq<Marker>): (es: seq<Entry>)
    ensures |es| == |objs|
    ensures forall i :: 0 <= i < |objs| ==>
      es[i] == Entry(Definition(prefix + ":" + TypeName(objs[i]), target, objs[i], false), None)
  {
    seq(|objs|, i requires 0 <= i < |objs| =>
      Entry(Definition(prefix + ":" + TypeName(objs[i]), target, objs[i], false), None))
  }

  /** `mustMakeAllWithPrefix`: a fresh definition object per value. */
  method MustMakeAllWithPrefix(prefix: string, target: Target, objs: seq<Marker>)
    returns (defs: seq<DefinitionWithHelp>)
    ensures Entries(defs) == MadeWithPrefix(prefix, target, objs)
    ensures forall i :: 0 <= i < |defs| ==> fresh(defs[i])
  {
    defs := [];
    var i := 0;
    while i < |objs|
      invariant 0 <= i <= |objs| && |defs| == i
      invariant forall k :: 0 <= k < i ==> fresh(defs[k])
      invariant forall k :: 0 <= k < i ==>
        defs[k].definition == Definition(prefix + ":" + TypeName(objs[k]), target, objs[k], false) && defs[k].help == None
    {
      var name := prefix + ":" + TypeName(objs[i]);
      var d := new DefinitionWithHelp(Definition(name, target, objs[i], false), None);
      defs := defs + [d];
      i := i + 1;
    }
  }

  /** The name every `kubebuilder:validation:` marker starts with. */
  const ValidationNamePrefix := ValidationPrefix + ":"

  const RequiredHelp := Help("CRD validation", "specifies that this field is required, if fields are optional by default.")

  /** The entries of `FieldOnlyMarkers`, in order. */
  function FieldOnlyEntries(): seq<Entry> {
    [ Entry(Definition(ValidationNamePrefix + "Required", DescribesField, Required, false), Some(RequiredHelp)),
      Entry(Definition(ValidationNamePrefix + "Nullable", DescribesField, Nullable, false), None),
      Entry(Definition("kubebuilder:default", DescribesField, Default(JNull), true), None),
      Entry(Definition("kubebuilder:example", DescribesField, Example(JNull), true), None),
      Entry(Definition(ValidationNamePrefix + "EmbeddedResource", DescribesField, XEmbeddedResource, false), None),
      Entry(Definition(ValidationNamePrefix + "Schemaless", DescribesField, Schemaless, false), None) ]
  }

  /** The entries of `ValidationIshMarkers`, in order. */
  function ValidationIshEntries(): seq<Entry> {
    [ Entry(Definition("kubebuilder:pruning:PreserveUnknownFields", DescribesField, XPreserveUnknownFields, false), None),
      Entry(Definition("kubebuilder:pruning:PreserveUnknownFields", DescribesType, XPreserveUnknownFields, false), None) ]
  }

  /** The same entries retargeted at types. */
  function AsTypeEntries(es: seq<Entry>): (r: seq<Entry>)
    ensures |r| == |es|
    ensures forall i :: 0 <= i < |es| ==>
      r[i] == es[i].(definition := es[i].definition.(target := DescribesType))
  {
    seq(|es|, i requires 0 <= i < |es| => es[i].(definition := es[i].definition.(target := DescribesType)))
  }

  /** `AllDefinitions` after `init`: the validation markers for fields, the
      same again for types, then the field-only and validation-ish ones. */
  function Catalog(): seq<Entry> {
    var vm := MadeWithPrefix(ValidationPrefix, DescribesField, ValidationPrototypes);
    vm + AsTypeEntries(vm) + FieldOnlyEntries() + ValidationIshEntries()
  }

  /** The `FieldOnlyMarkers` objects; only Required carries help. */
  method FieldOnlyMarkers() returns (defs: seq<DefinitionWithHelp>)
    ensures Entries(defs) == FieldOnlyEntries()
  {
    var es := FieldOnlyEntries();
    var required := new DefinitionWithHelp(es[0].definition, None);
    required := required.WithHelp(RequiredHelp);
    var nullable := new DefinitionWithHelp(es[1].definition, None);
    var dflt := new DefinitionWithHelp(es[2].definition, None);
    var example := new DefinitionWithHelp(es[3].definition, None);
    var embedded := new DefinitionWithHelp(es[4].definition, None);
    var schemaless := new DefinitionWithHelp(es[5].definition, None);
    defs := [required, nullable, dflt, example, embedded, schemaless];
    EntriesOf(defs, es);
  }

  /** The `ValidationIshMarkers` objects. */
  method ValidationIshMarkers() returns (defs: seq<DefinitionWithHelp>)
    ensures Entries(defs) == ValidationIshEntries()
    ensures forall i :: 0 <= i < |defs| ==> fresh(defs[i])
  {
    var forField := new DefinitionWithHelp(Definition("kubebuilder:pruning:PreserveUnknownFields", DescribesField, XPreserveUnknownFields, false), None);
    var forType := new DefinitionWithHelp(Definition("kubebuilder:pruning:PreserveUnknownFields", DescribesType, XPreserveUnknownFields, false), None);
    defs := [forField, forType];
  }

  /** Objects holding the given entries, position by position. */
  lemma EntriesOf(defs: seq<DefinitionWithHelp>, es: seq<Entry>)
    requires |defs| == |es|
    requires forall k :: 0 <= k < |es| ==> defs[k].definition == es[k].definition && defs[k].help == es[k].help
    ensures Entries(defs) == es
  {
  }

  /** `Entries` distributes over concatenation. */
  lemma EntriesAppend(a: seq<DefinitionWithHelp>, b: seq<DefinitionWithHelp>)
    ensures Entries(a + b) == Entries(a) + Entries(b)
  {
  }

  /** The loop of `init` that copies each validation marker with the type
      target: a new object per definition, so the originals keep theirs. */
  method TypeTargetCopies(defs: seq<DefinitionWithHelp>) returns (copies: seq<DefinitionWithHelp>)
    ensures Entries(copies) == AsTypeEntries(Entries(defs))
    ensures forall i :: 0 <= i < |copies| ==> fresh(copies[i])
  {
    copies := [];
    var i := 0;
    while i < |defs|
      invariant 0 <= i <= |defs| && |copies| == i
      invariant Entries(copies) == AsTypeEntries(Entries(defs[..i]))
      invariant forall k :: 0 <= k < i ==> fresh(copies[k])
    {
      var def := defs[i];
      var typDef := new DefinitionWithHelp(def.definition.(target := DescribesType), def.help);
      copies := copies + [typDef];
      i := i + 1;
    }
    assert defs[..i] == defs;
  }

  /** `init`: the validation markers, a type-target copy of each, then the
      field-only and validation-ish markers. */
  method Init() returns (validationMarkers: seq<DefinitionWithHelp>, all: seq<DefinitionWithHelp>)
    ensures Entries(validationMarkers) == MadeWithPrefix(ValidationPrefix, DescribesField, ValidationPrototypes)
    ensures Entries(all) == Catalog()
  {
    validationMarkers := MustMakeAllWithPrefix(ValidationPrefix, DescribesField, ValidationPrototypes);
    var copies := TypeTargetCopies(validationMarkers);
    var fieldOnly := FieldOnlyMarkers();
    var ish := ValidationIshMarkers();
    all := validationMarkers + copies + fieldOnly + ish;
    EntriesAppend(validationMarkers, copies);
    EntriesAppend(validationMarkers + copies, fieldOnly);
    EntriesAppend(validationMarkers + copies + fieldOnly, ish);
  }

  /** Every validation marker is registered twice, for fields and then for
      types, under `kubebuilder:validation:<type name>`. */
  lemma CatalogLayout()
    ensures |Catalog()| == 48
    ensures forall i :: 0 <= i < 20 ==>
      Catalog()[i].definition == Definition(ValidationNamePrefix + TypeName(ValidationPrototypes[i]), DescribesField, ValidationPrototypes[i], false)
      && Catalog()[20 + i].definition == Definition(ValidationNamePrefix + TypeName(ValidationPrototypes[i]), DescribesType, ValidationPrototypes[i], false)
    ensures Catalog()[40..46] == FieldOnlyEntries() && Catalog()[46..] == ValidationIshEntries()
  {
    var vm := MadeWithPrefix(ValidationPrefix, DescribesField, ValidationPrototypes);
    assert Catalog() == vm + AsTypeEntries(vm) + FieldOnlyEntries() + ValidationIshEntries();
    forall i | 0 <= i < 20 ensures vm[i].definition.name == ValidationNamePrefix + TypeName(ValidationPrototypes[i]) {
      assert ValidationPrefix + ":" + TypeName(ValidationPrototypes[i]) == ValidationNamePrefix + TypeName(ValidationPrototypes[i]);
    }
  }

  /** No validation marker's name is the name of a field-only marker. */
  lemma ValidationNameIsNotFieldOnly(k: nat, j: nat)
    requires k < |ValidationPrototypes| && j < |FieldOnlyEntries()|
    ensures ValidationNamePrefix + TypeName(ValidationPrototypes[k]) != FieldOnlyEntries()[j].definition.name
  {
    var t := TypeName(ValidationPrototypes[k]);
    var name := FieldOnlyEntries()[j].definition.name;
    assert t != "Required" && t != "Nullable" && t != "EmbeddedResource" && t != "Schemaless";
    if j == 2 || j == 3 {
      assert |name| < |ValidationNamePrefix|;
    } else {
      var suffix := name[|ValidationNamePrefix|..];
      assert name == ValidationNamePrefix + suffix;
      assert suffix in {"Required", "Nullable", "EmbeddedResource", "Schemaless"};
      assert (ValidationNamePrefix + t)[|ValidationNamePrefix|..] == t;
    }
  }

  /** Only field targets carry the field-only markers: no type-target
      entry has the name of one of them. */
  lemma FieldOnlyMarkersOnlyForFields()
    ensures forall i, j :: 0 <= i < |Catalog()| && 0 <= j < |FieldOnlyEntries()| && Catalog()[i].definition.target == DescribesType ==>
      Catalog()[i].definition.name != FieldOnlyEntries()[j].definition.name
  {
    CatalogLayout();
    forall i, j | 0 <= i < |Catalog()| && 0 <= j < |FieldOnlyEntries()| && Catalog()[i].definition.target == DescribesType
      ensures Catalog()[i].definition.name != FieldOnlyEntries()[j].definition.name
    {
      if i < 46 {
        assert 20 <= i < 40;
        ValidationNameIsNotFieldOnly(i - 20, j);
      } else {
        assert Catalog()[i] == ValidationIshEntries()[1];
      }
    }
  }

  /** The whole catalog registers into an empty registry without error,
      and afterwards every entry is stored under its target and name. */
  lemma CatalogRegisters()
    ensures RegisterEntries(EmptyStore, Catalog()).Ok?
    ensures forall i :: 0 <= i < |Catalog()| ==>
      (Catalog()[i].definition.target, Catalog()[i].definition.name) in RegisterEntries(EmptyStore, Catalog()).value.defs
  {
    CatalogLayout();
    forall i | 0 <= i < |Catalog()| ensures !Catalog()[i].definition.target.OtherTarget? {
    }
    RegisterEntriesFails(EmptyStore, Catalog());
    RegisterEntriesStores(EmptyStore, Catalog());
  }

  /** Definitions made from values of pairwise different Go types have
      pairwise different names. */
  lemma MadeWithPrefixNamesDistinct(prefix: string, target: Target, objs: seq<Marker>)
    requires forall i, j :: 0 <= i < j < |objs| ==> TypeName(objs[i]) != TypeName(objs[j])
    ensures forall i, j :: 0 <= i < j < |objs| ==>
      MadeWithPrefix(prefix, target, objs)[i].definition.name != MadeWithPrefix(prefix, target, objs)[j].definition.name
  {
    var es := MadeWithPrefix(prefix, target, objs);
    var n := |prefix| + 1;
    forall i, j | 0 <= i < j < |objs| ensures es[i].definition.name != es[j].definition.name {
      assert es[i].definition.name[n..] == TypeName(objs[i]);
      assert es[j].definition.name[n..] == TypeName(objs[j]);
    }
  }

  /** Tells the validation markers' Go type names apart by their length
      and a character or two, giving each one's position in
      `ValidationPrototypes`. */
  function PrototypeIndex(t: string): int {
    var n := |t|;
    if n == 7 then (if t[0] == 'P' then 9 else if t[1] == 'a' then 0 else 1)
    else if n == 16 then (if t[10] == 'a' then 2 else 3)
    else if n == 10 then 4
    else if n == 13 then (if t[1] == 'i' then 5 else 6)
    else if n == 9 then (if t[1] == 'a' then 7 else 8)
    else if n == 8 then (if t[1] == 'a' then 10 else 11)
    else if n == 11 then (if t[0] == 'U' then 12 else 19)
    else if n == 4 then (if t[0] == 'E' then 13 else 15)
    else if n == 6 then 14
    else if n == 22 then 16
    else if n == 17 then 17
    else if n == 12 then 18
    else -1
  }

  /** `PrototypeIndex` inverts the type names of the validation markers,
      so those names are pairwise different. */
  lemma PrototypeTypeNamesDistinct()
    ensures forall i :: 0 <= i < |ValidationPrototypes| ==> PrototypeIndex(TypeName(ValidationPrototypes[i])) == i
    ensures forall i, j :: 0 <= i < j < |ValidationPrototypes| ==>
      TypeName(ValidationPrototypes[i]) != TypeName(ValidationPrototypes[j])
  {
    forall i | 0 <= i < |ValidationPrototypes| ensures PrototypeIndex(TypeName(ValidationPrototypes[i])) == i {
      assert i == 0 || i == 1 || i == 2 || i == 3 || i == 4 || i == 5 || i == 6 || i == 7 || i == 8 || i == 9
        || i == 10 || i == 11 || i == 12 || i == 13 || i == 14 || i == 15 || i == 16 || i == 17 || i == 18 || i == 19;
    }
  }

  /** No validation marker's name is the pruning marker's name. */
  lemma ValidationNameIsNotPruning(k: nat)
    requires k < |ValidationPrototypes|
    ensures ValidationNamePrefix + TypeName(ValidationPrototypes[k]) != ValidationIshEntries()[0].definition.name
  {
    assert (ValidationNamePrefix + TypeName(ValidationPrototypes[k]))[12] == 'v';
    assert ValidationIshEntries()[0].definition.name[12] == 'p';
  }

  /** The entries after the validation markers have pairwise different
      keys. */
  lemma TailKeysDistinct()
    ensures forall i, j :: 40 <= i < j < 48 ==> KeyOf(Catalog()[i]) != KeyOf(Catalog()[j])
  {
    CatalogLayout();
    var t := FieldOnlyEntries() + ValidationIshEntries();
    assert Catalog()[40..] == t;
    var n := |ValidationNamePrefix|;
    forall i, j | 0 <= i < j < 8 ensures KeyOf(t[i]) != KeyOf(t[j]) {
      if j < 6 && i != 2 && i != 3 && j != 2 && j != 3 {
        assert t[i].definition.name[n..] != t[j].definition.name[n..];
      }
    }
    forall i, j | 40 <= i < j < 48 ensures KeyOf(Catalog()[i]) != KeyOf(Catalog()[j]) {
      assert Catalog()[i] == t[i - 40] && Catalog()[j] == t[j - 40];
    }
  }

  /** The validation markers, for fields and then for types, have
      pairwise different keys. */
  lemma ValidationKeysDistinct()
    ensures |Catalog()| == 48
    ensures forall i, j :: 0 <= i < j < 40 ==> KeyOf(Catalog()[i]) != KeyOf(Catalog()[j])
  {
    CatalogLayout();
    PrototypeTypeNamesDistinct();
    forall i, j | 0 <= i < j < 40 ensures KeyOf(Catalog()[i]) != KeyOf(Catalog()[j]) {
      ValidationPairDistinct(i, j);
    }
  }

  lemma ValidationPairDistinct(i: nat, j: nat)
    requires i < j < 40
    requires forall a, b :: 0 <= a < b < |ValidationPrototypes| ==>
      TypeName(ValidationPrototypes[a]) != TypeName(ValidationPrototypes[b])
    ensures |Catalog()| == 48 && KeyOf(Catalog()[i]) != KeyOf(Catalog()[j])
  {
    CatalogLayout();
    if j < 20 || 20 <= i {
      var a, b := if i < 20 then i else i - 20, if j < 20 then j else j - 20;
      PrefixedNamesDiffer(TypeName(ValidationPrototypes[a]), TypeName(ValidationPrototypes[b]));
    }
  }

  /** Names under the validation prefix differ when their suffixes do. */
  lemma PrefixedNamesDiffer(t: string, u: string)
    requires t != u
    ensures ValidationNamePrefix + t != ValidationNamePrefix + u
  {
    var n := |ValidationNamePrefix|;
    assert (ValidationNamePrefix + t)[n..] == t;
    assert (ValidationNamePrefix + u)[n..] == u;
  }

  /** No validation marker shares a key with a later entry. */
  lemma ValidationKeysNotInTail()
    ensures |Catalog()| == 48
    ensures forall i, j :: 0 <= i < 40 <= j < 48 ==> KeyOf(Catalog()[i]) != KeyOf(Catalog()[j])
  {
    CatalogLayout();
    forall i, j | 0 <= i < 40 <= j < 48 ensures KeyOf(Catalog()[i]) != KeyOf(Catalog()[j]) {
      ValidationNotTailPair(i, j);
    }
  }

  lemma ValidationNotTailPair(i: nat, j: nat)
    requires i < 40 <= j < 48
    ensures |Catalog()| == 48 && Catalog()[i].definition.name != Catalog()[j].definition.name
  {
    CatalogLayout();
    var k := if i < 20 then i else i - 20;
    if j < 46 {
      assert Catalog()[j] == Catalog()[40..46][j - 40];
      ValidationNameIsNotFieldOnly(k, j - 40);
    } else {
      assert Catalog()[j] == Catalog()[46..][j - 46];
      ValidationNameIsNotPruning(k);
    }
  }

  /** No two entries of the catalog share a target and a name. */
  lemma CatalogKeysDistinct()
    ensures |Catalog()| == 48
    ensures forall i, j :: 0 <= i < j < |Catalog()| ==> KeyOf(Catalog()[i]) != KeyOf(Catalog()[j])
  {
    ValidationKeysDistinct();
    ValidationKeysNotInTail();
    TailKeysDistinct();
  }

  /** After registering the catalog, every entry's key holds that entry's
      own definition: no entry shadows another. */
  lemma CatalogStoresOwnDefinitions()
    ensures RegisterEntries(EmptyStore, Catalog()).Ok?
    ensures forall i :: 0 <= i < |Catalog()| ==>
      KeyOf(Catalog()[i]) in RegisterEntries(EmptyStore, Catalog()).value.defs
      && RegisterEntries(EmptyStore, Catalog()).value.defs[KeyOf(Catalog()[i])] == Catalog()[i].definition
  {
    CatalogRegisters();
    CatalogKeysDistinct();
    forall i | 0 <= i < |Catalog()| ensures
      KeyOf(Catalog()[i]) in RegisterEntries(EmptyStore, Catalog()).value.defs
      && RegisterEntries(EmptyStore, Catalog()).value.defs[KeyOf(Catalog()[i])] == Catalog()[i].definition
    {
      RegisterEntriesValues(EmptyStore, Catalog(), i);
    }
  }

  // ---------------------------------------------------------------------
  // Applying rules.

  /** How a rule resolves: its definition for the target, then its parse;
      `Err` carries the error text `ApplyRulesToSchema` returns. */
  function Resolve(g: Grammar, rule: string, target: Target): Result<Parsed> {
    match g.lookup(rule, target)
    case None => Err("no definition found for rule: " + rule)
    case Some(d) =>
      match g.parse(d, rule)
      case Err(e) => Err("error parsing rule: " + e)
      case Ok(v) => Ok(v)
  }

  /** The end of an attempt: success, a returned error, or a panic. */
  datatype Status = Success | Failure(error: string) | Panic(message: string)

  /** `ApplyRulesToSchema` on a schema value: the schema after the rules
      that were applied, and how the run ended. */
  function ApplyRules(g: Grammar, rules: seq<string>, target: Target, s: Schema): (Schema, Status)
    decreases |rules|
  {
    if rules == [] then (s, Success)
    else
      match Resolve(g, rules[0], target)
      case Err(e) => (s, Failure(e))
      case Ok(OtherValue(t)) => (s, Failure("expected SchemaMarker, got " + t))
      case Ok(MarkerValue(m)) =>
        match Apply(m, s)
        case Err(p) => (s, Panic(p))
        case Ok(s') => ApplyRules(g, rules[1..], target, s')
  }

  /** The markers the rules resolve to, when every one resolves to a
      marker. */
  function ResolvedMarkers(g: Grammar, rules: seq<string>, target: Target): Option<seq<Marker>>
    decreases |rules|
  {
    if rules == [] then Some([])
    else
      match Resolve(g, rules[0], target)
      case Ok(MarkerValue(m)) =>
        (match ResolvedMarkers(g, rules[1..], target)
         case Some(ms) => Some([m] + ms)
         case None => None)
      case _ => None
  }

  /** When every rule resolves to a marker, applying the rules is applying
      those markers in list order: success exactly when no marker panics,
      with the same resulting schema. */
  lemma {:induction false} ApplyRulesIsApplyAll(g: Grammar, rules: seq<string>, target: Target, s: Schema)
    requires ResolvedMarkers(g, rules, target).Some?
    ensures var (s', st) := ApplyRules(g, rules, target, s);
      var r := ApplyAll(ResolvedMarkers(g, rules, target).value, s);
      (st.Success? <==> r.Ok?) && (r.Ok? ==> s' == r.value) && !st.Failure?
    decreases |rules|
  {
    if rules != [] {
      var m := Resolve(g, rules[0], target).value.marker;
      var ms := ResolvedMarkers(g, rules, target).value;
      assert ms[0] == m && ms[1..] == ResolvedMarkers(g, rules[1..], target).value;
      if Apply(m, s).Ok? {
        ApplyRulesIsApplyAll(g, rules[1..], target, Apply(m, s).value);
      }
    }
  }

  /** Rules are applied in order: running two lists one after the other is
      running their concatenation, and an error in the first list stops
      before the second. */
  lemma {:induction false} ApplyRulesConcat(g: Grammar, r1: seq<string>, r2: seq<string>, target: Target, s: Schema)
    ensures var (s1, st1) := ApplyRules(g, r1, target, s);
      ApplyRules(g, r1 + r2, target, s) == if st1.Success? then ApplyRules(g, r2, target, s1) else (s1, st1)
    decreases |r1|
  {
    if r1 == [] {
      assert r1 + r2 == r2;
    } else {
      assert (r1 + r2)[0] == r1[0] && (r1 + r2)[1..] == r1[1..] + r2;
      match Resolve(g, r1[0], target)
      case Err(_) =>
      case Ok(OtherValue(_)) =>
      case Ok(MarkerValue(m)) =>
        if Apply(m, s).Ok? {
          ApplyRulesConcat(g, r1[1..], r2, target, Apply(m, s).value);
        }
    }
  }

  /** Rules never give structure to a schema that has none: whatever
      markers run, and wherever the run stops, a schema without
      properties, required fields or nested schemas stays without them. */
  lemma {:induction false} RulesKeepEmptyStructure(g: Grammar, rules: seq<string>, target: Target, s: Schema)
    requires Structure(s) == Structure(NewSchema())
    ensures Structure(ApplyRules(g, rules, target, s).0) == Structure(NewSchema())
    decreases |rules|
  {
    if rules != [] {
      match Resolve(g, rules[0], target)
      case Err(_) =>
      case Ok(OtherValue(_)) =>
      case Ok(MarkerValue(m)) =>
        if Apply(m, s).Ok? {
          MarkersKeepStructure(m, s);
          RulesKeepEmptyStructure(g, rules[1..], target, Apply(m, s).value);
        }
    }
  }

  /** `Registry.ApplyRulesToSchema`, in place. The error is `Some` for a
      returned error; a marker's panic ends the run with `panicked`. */
  method ApplyRulesToSchema(g: Grammar, rules: seq<string>, o: SchemaObject, target: Target)
    returns (status: Status)
    modifies o
    ensures (o.value, status) == ApplyRules(g, rules, target, old(o.value))
  {
    var i := 0;
    while i < |rules|
      invariant 0 <= i <= |rules|
      invariant ApplyRules(g, rules, target, old(o.value)) == ApplyRules(g, rules[i..], target, o.value)
    {
      assert rules[i..][0] == rules[i] && rules[i..][1..] == rules[i + 1..];
      var rule := rules[i];
      var defn := g.lookup(rule, target);
      if defn.None? {
        return Failure("no definition found for rule: " + rule);
      }
      var val := g.parse(defn.value, rule);
      if val.Err? {
        return Failure("error parsing rule: " + val.error);
      }
      match val.value {
        case OtherValue(t) =>
          return Failure("expected SchemaMarker, got " + t);
        case MarkerValue(m) =>
          var applied := ApplyToSchema(m, o);
          if applied.Err? {
            return Panic(applied.error);
          }
      }
      i := i + 1;
    }
    status := Success;
  }

  /** The panic `MustApplyRulesToSchema` turns an error into. */
  function MustStatus(st: Status): (r: Status)
    ensures r.Success? <==> st.Success?
    ensures r.Failure? == false
  {
    match st
    case Failure(e) => Panic("error applying rules to schema: " + e)
    case _ => st
  }

  /** `Registry.MustApplyRulesToSchema`: the same run, with a returned
      error turned into a panic. */
  method MustApplyRulesToSchema(g: Grammar, rules: seq<string>, o: SchemaObject, target: Target)
    returns (status: Status)
    modifies o
    ensures o.value == ApplyRules(g, rules, target, old(o.value)).0
    ensures status == MustStatus(ApplyRules(g, rules, target, old(o.value)).1)
  {
    var st := ApplyRulesToSchema(g, rules, o, target);
    status := MustStatus(st);
  }

  predicate ParsesToType(p: Parsed) {
    p.MarkerValue? && p.marker.Type?
  }

  /** Every rule before position `i` resolves, and none to a Type marker. */
  predicate NoTypeBefore(g: Grammar, rules: seq<string>, target: Target, i: int)
    requires 0 <= i <= |rules|
  {
    forall j :: 0 <= j < i ==> Resolve(g, rules[j], target).Ok? && !ParsesToType(Resolve(g, rules[j], target).value)
  }

  /** The scan `GetSchemaType` performs, as a function: `Err` for the
      panic. */
  function SchemaTypeScan(g: Grammar, rules: seq<string>, target: Target): Result<string>
    decreases |rules|
  {
    if rules == [] then Ok("")
    else
      match Resolve(g, rules[0], target)
      case Err(e) => Err(e)
      case Ok(p) => if ParsesToType(p) then Ok(p.marker.typeName) else SchemaTypeScan(g, rules[1..], target)
  }

  /** `Registry.GetSchemaType`: the type of the first rule that parses to
      a Type marker, `""` when none does; an unknown or unparsable rule
      met before it panics. */
  method GetSchemaType(g: Grammar, rules: seq<string>, target: Target) returns (r: Result<string>)
    ensures r.Err? <==> exists i :: 0 <= i < |rules| && Resolve(g, rules[i], target).Err? && NoTypeBefore(g, rules, target, i)
    ensures r.Ok? ==>
      (exists i :: 0 <= i < |rules| && Resolve(g, rules[i], target) == Ok(MarkerValue(Type(r.value))) && NoTypeBefore(g, rules, target, i))
      || (r.value == "" && NoTypeBefore(g, rules, target, |rules|))
    ensures r == SchemaTypeScan(g, rules, target)
  {
    var i := 0;
    while i < |rules|
      invariant 0 <= i <= |rules|
      invariant NoTypeBefore(g, rules, target, i)
      invariant SchemaTypeScan(g, rules, target) == SchemaTypeScan(g, rules[i..], target)
    {
      assert rules[i..][0] == rules[i] && rules[i..][1..] == rules[i + 1..];
      var rule := rules[i];
      var defn := g.lookup(rule, target);
      if defn.None? {
        return Err("no definition found for rule: " + rule);
      }
      var val := g.parse(defn.value, rule);
      if val.Err? {
        return Err("error parsing rule: " + val.error);
      }
      if val.value.MarkerValue? && val.value.marker.Type? {
        return Ok(val.value.marker.typeName);
      }
      i := i + 1;
    }
    r := Ok("");
  }

  /** Every rule before position `i` has a field definition and lacks the
      Required prefix. */
  predicate KnownNotRequiredBefore(g: Grammar, rules: seq<string>, i: int)
    requires 0 <= i <= |rules|
  {
    forall j :: 0 <= j < i ==> g.lookup(rules[j], DescribesField).Some? && !HasPrefix(rules[j], RequiredPrefix)
  }

  /** The scan `IsRequired` performs, as a function: `Err` for the
      panic. */
  function RequiredScan(g: Grammar, rules: seq<string>): Result<bool>
    decreases |rules|
  {
    if rules == [] then Ok(false)
    else if g.lookup(rules[0], DescribesField).None? then Err("no definition found for rule: " + rules[0])
    else if HasPrefix(rules[0], RequiredPrefix) then Ok(true)
    else RequiredScan(g, rules[1..])
  }

  /** `Registry.IsRequired`: true at the first rule with the Required
      prefix; every rule before it must have a field-target definition,
      or the scan panics. */
  method IsRequired(g: Grammar, rules: seq<string>) returns (r: Result<bool>)
    ensures r == Ok(true) <==> exists i :: 0 <= i < |rules| && HasPrefix(rules[i], RequiredPrefix)
                                         && g.lookup(rules[i], DescribesField).Some? && KnownNotRequiredBefore(g, rules, i)
    ensures r.Err? <==> exists i :: 0 <= i < |rules| && g.lookup(rules[i], DescribesField).None?
                                  && KnownNotRequiredBefore(g, rules, i)
    ensures r == Ok(false) <==> KnownNotRequiredBefore(g, rules, |rules|)
    ensures r == RequiredScan(g, rules)
  {
    var i := 0;
    while i < |rules|
      invariant 0 <= i <= |rules|
      invariant KnownNotRequiredBefore(g, rules, i)
      invariant RequiredScan(g, rules) == RequiredScan(g, rules[i..])
    {
      assert rules[i..][0] == rules[i] && rules[i..][1..] == rules[i + 1..];
      var rule := rules[i];
      if g.lookup(rule, DescribesField).None? {
        return Err("no definition found for rule: " + rule);
      }
      if HasPrefix(rule, RequiredPrefix) {
        return Ok(true);
      }
      i := i + 1;
    }
    r := Ok(false);
  }
}
