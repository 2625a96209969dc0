/** Marker definitions and their registration (pkg/markers/register.go):
    the definition-with-help record, the registry wrapper that also holds
    the ignored-marker pattern, and the loop that registers every
    definition. controller-tools' own registry is modelled as a keyed
    store of definitions and a store of help texts. */
module Registration {
  import opened Wrappers
  import opened GoStrings
  import opened Constraints

  /** controller-tools `TargetType`; `OtherTarget` stands for any value
      outside the three the library knows. */
  datatype Target = DescribesPackage | DescribesType | DescribesField | OtherTarget(code: int)

  /** controller-tools `DefinitionHelp`, as built by `SimpleHelp`. */
  datatype Help = Help(category: string, summary: string)

  /** controller-tools `Definition`: the marker name, what it may be
      attached to, the Go value whose type the marker parses into, and
      whether it was made by `MakeAnyTypeDefinition`. */
  datatype Definition = Definition(name: string, target: Target, output: Marker, anyType: bool)

  /** The pair `(definition, help)` a `definitionWithHelp` carries. */
  datatype Entry = Entry(definition: Definition, help: Option<Help>)

  /** The contents of a controller-tools registry. */
  datatype Store = Store(defs: map<(Target, string), Definition>, helps: map<Definition, Help>)

  const EmptyStore := Store(map[], map[])

  /** The key a registry stores a definition under. */
  function KeyOf(e: Entry): (Target, string) {
    (e.definition.target, e.definition.name)
  }

  /** `Registry.Register` of controller-tools: a known target stores the
      definition under its name (a later one replacing an earlier one);
      any other target is an error. */
  function RegisterDefinition(st: Store, d: Definition): (r: Result<Store>)
    ensures r.Err? <==> d.target.OtherTarget?
    ensures r.Ok? ==> (r.value.helps == st.helps
      && (d.target, d.name) in r.value.defs && r.value.defs[(d.target, d.name)] == d)
    ensures r.Ok? ==> forall k :: k != (d.target, d.name) ==>
      (k in r.value.defs <==> k in st.defs) && (k in st.defs ==> r.value.defs[k] == st.defs[k])
  {
    if d.target.OtherTarget? then Err("unknown target type")
    else Ok(Store(st.defs[(d.target, d.name) := d], st.helps))
  }

  /** `definitionWithHelp.Register`: registration first, then help only
      when registration succeeded and help is present. */
  function RegisterEntry(st: Store, e: Entry): (r: Result<Store>)
    ensures r.Err? <==> e.definition.target.OtherTarget?
    ensures r.Ok? ==> r.value.defs == RegisterDefinition(st, e.definition).value.defs
    ensures r.Ok? && e.help.None? ==> r.value.helps == st.helps
    ensures r.Ok? && e.help.Some? ==> r.value.helps == st.helps[e.definition := e.help.value]
  {
    match RegisterDefinition(st, e.definition)
    case Err(err) => Err(err)
    case Ok(st') =>
      if e.help.Some? then Ok(st'.(helps := st'.helps[e.definition := e.help.value])) else Ok(st')
  }

  /** `Register`: every entry in order, stopping at the first error. */
  function RegisterEntries(st: Store, es: seq<Entry>): Result<Store>
    decreases |es|
  {
    if es == [] then Ok(st)
    else
      match RegisterEntry(st, es[0])
      case Err(err) => Err(err)
      case Ok(st') => RegisterEntries(st', es[1..])
  }

  /** Registration fails exactly when some entry has an unknown target, and
      then with the error of the first such entry. */
  lemma {:induction false} RegisterEntriesFails(st: Store, es: seq<Entry>)
    ensures RegisterEntries(st, es).Err? <==>
      exists i :: 0 <= i < |es| && es[i].definition.target.OtherTarget?
    decreases |es|
  {
    if es != [] {
      if !es[0].definition.target.OtherTarget? {
        var st' := RegisterEntry(st, es[0]).value;
        RegisterEntriesFails(st', es[1..]);
        if exists i :: 0 <= i < |es[1..]| && es[1..][i].definition.target.OtherTarget? {
          var i :| 0 <= i < |es[1..]| && es[1..][i].definition.target.OtherTarget?;
          assert es[i + 1] == es[1..][i];
        }
        if exists i :: 0 <= i < |es| && es[i].definition.target.OtherTarget? {
          var i :| 0 <= i < |es| && es[i].definition.target.OtherTarget?;
          assert i > 0 && es[1..][i - 1] == es[i];
        }
      }
    }
  }

  /** After a successful registration every entry is stored under its
      target and name, and a key no entry names keeps its old value. */
  lemma {:induction false} RegisterEntriesStores(st: Store, es: seq<Entry>)
    requires RegisterEntries(st, es).Ok?
    ensures forall i :: 0 <= i < |es| ==>
      (es[i].definition.target, es[i].definition.name) in RegisterEntries(st, es).value.defs
    ensures forall k :: k in st.defs && (forall i :: 0 <= i < |es| ==> k != (es[i].definition.target, es[i].definition.name)) ==>
      k in RegisterEntries(st, es).value.defs && RegisterEntries(st, es).value.defs[k] == st.defs[k]
    decreases |es|
  {
    if es != [] {
      var st' := RegisterEntry(st, es[0]).value;
      RegisterEntriesStores(st', es[1..]);
      var r := RegisterEntries(st, es).value;
      assert r == RegisterEntries(st', es[1..]).value;
      forall i | 0 <= i < |es|
        ensures (es[i].definition.target, es[i].definition.name) in r.defs
      {
        if i > 0 {
          assert es[1..][i - 1] == es[i];
        } else {
          assert (es[0].definition.target, es[0].definition.name) in st'.defs;
          KeyStaysStored(st', es[1..], (es[0].definition.target, es[0].definition.name));
        }
      }
      forall k | k in st.defs && (forall i :: 0 <= i < |es| ==> k != (es[i].definition.target, es[i].definition.name))
        ensures k in r.defs && r.defs[k] == st.defs[k]
      {
        assert k != (es[0].definition.target, es[0].definition.name);
        forall i | 0 <= i < |es[1..]| ensures k != (es[1..][i].definition.target, es[1..][i].definition.name) {
          assert es[1..][i] == es[i + 1];
        }
      }
    }
  }

  /** After a successful registration, an entry that no later entry
      shadows (same target and name) is the definition stored under its
      key. */
  lemma {:induction false} RegisterEntriesValues(st: Store, es: seq<Entry>, i: nat)
    requires RegisterEntries(st, es).Ok? && i < |es|
    requires forall j :: i < j < |es| ==> KeyOf(es[j]) != KeyOf(es[i])
    ensures KeyOf(es[i]) in RegisterEntries(st, es).value.defs
    ensures RegisterEntries(st, es).value.defs[KeyOf(es[i])] == es[i].definition
    decreases |es|
  {
    var st' := RegisterEntry(st, es[0]).value;
    var tail := es[1..];
    assert RegisterEntries(st, es) == RegisterEntries(st', tail);
    if i == 0 {
      RegisterEntriesStores(st', tail);
      forall j | 0 <= j < |tail| ensures KeyOf(es[0]) != (tail[j].definition.target, tail[j].definition.name) {
        assert tail[j] == es[j + 1];
      }
    } else {
      forall j | i - 1 < j < |tail| ensures KeyOf(tail[j]) != KeyOf(tail[i - 1]) {
        assert tail[j] == es[j + 1];
      }
      RegisterEntriesValues(st', tail, i - 1);
    }
  }

  /** A stored key stays stored through later registrations. */
  lemma {:induction false} KeyStaysStored(st: Store, es: seq<Entry>, k: (Target, string))
    requires k in st.defs && RegisterEntries(st, es).Ok?
    ensures k in RegisterEntries(st, es).value.defs
    decreases |es|
  {
    if es != [] {
      KeyStaysStored(RegisterEntry(st, es[0]).value, es[1..], k);
    }
  }

  /** `definitionWithHelp`. */
  class DefinitionWithHelp {
    var definition: Definition
    var help: Option<Help>

    constructor (d: Definition, h: Option<Help>)
      ensures definition == d && help == h
    {
      definition := d;
      help := h;
    }

    /** `WithHelp`: sets the help and returns the receiver itself. */
    method WithHelp(h: Help) returns (self: DefinitionWithHelp)
      modifies this
      ensures self == this
      ensures help == Some(h) && definition == old(definition)
    {
      help := Some(h);
      self := this;
    }

    /** `definitionWithHelp.Register`. */
    method Register(reg: KubeRegistry) returns (err: Option<string>)
      modifies reg
      ensures RegisterEntry(old(reg.store), Entry(definition, help)).Err? ==>
        err.Some? && reg.store == old(reg.store)
      ensures RegisterEntry(old(reg.store), Entry(definition, help)).Ok? ==>
        err.None? && reg.store == RegisterEntry(old(reg.store), Entry(definition, help)).value
    {
      err := reg.Register(definition);
      if err.Some? {
        return;
      }
      if help.Some? {
        reg.AddHelp(definition, help.value);
      }
    }
  }

  /** controller-tools `markers.Registry`. */
  class KubeRegistry {
    var store: Store

    constructor ()
      ensures store == EmptyStore
    {
      store := EmptyStore;
    }

    method Register(d: Definition) returns (err: Option<string>)
      modifies this
      ensures RegisterDefinition(old(store), d).Err? ==> err.Some? && store == old(store)
      ensures RegisterDefinition(old(store), d).Ok? ==> err.None? && store == RegisterDefinition(old(store), d).value
    {
      match RegisterDefinition(store, d) {
        case Err(e) => err := Some(e);
        case Ok(st) => store := st; err := None;
      }
    }

    method AddHelp(d: Definition, h: Help)
      modifies this
      ensures store == old(store).(helps := old(store).helps[d := h])
    {
      store := store.(helps := store.helps[d := h]);
    }
  }

  /** The entries a list of definitions carries, in order. */
  function Entries(all: seq<DefinitionWithHelp>): (es: seq<Entry>)
    reads set i | 0 <= i < |all| :: all[i]
    ensures |es| == |all|
    ensures forall i :: 0 <= i < |all| ==> es[i] == Entry(all[i].definition, all[i].help)
  {
    seq(|all|, i requires 0 <= i < |all| reads all => Entry(all[i].definition, all[i].help))
  }

  /** `Register`: registers each definition in order and returns the first
      error, leaving the registry as the earlier entries made it. */
  method RegisterAll(reg: KubeRegistry, all: seq<DefinitionWithHelp>) returns (err: Option<string>)
    modifies reg
    ensures RegisterEntries(old(reg.store), Entries(all)).Ok? ==>
      err.None? && reg.store == RegisterEntries(old(reg.store), Entries(all)).value
    ensures RegisterEntries(old(reg.store), Entries(all)).Err? ==> err.Some?
  {
    ghost var es := Entries(all);
    ghost var st0 := reg.store;
    var i := 0;
    while i < |all|
      invariant 0 <= i <= |all|
      invariant es == Entries(all)
      invariant RegisterEntries(st0, es) == RegisterEntries(reg.store, es[i..])
    {
      assert es[i..][0] == Entry(all[i].definition, all[i].help);
      assert es[i..][1..] == es[i + 1..];
      var e := all[i].Register(reg);
      if e.Some? {
        return e;
      }
      i := i + 1;
    }
    err := None;
  }

  /** The pattern an ignored-marker list compiles to: `None` for an empty
      list, otherwise the `|`-alternation of the substrings in a
      non-capturing group. */
  function IgnorePattern(ignored: seq<string>): (r: Option<string>)
    ensures r.None? <==> |ignored| == 0
  {
    if |ignored| > 0 then Some("(?:" + Join(ignored, "|") + ")") else None
  }

  /** The pattern's alternatives are exactly the configured substrings,
      when none of them contains `|`. */
  lemma PatternAlternatives(ignored: seq<string>)
    requires |ignored| > 0
    requires forall k :: 0 <= k < |ignored| ==> '|' !in ignored[k]
    ensures var p := IgnorePattern(ignored).value;
      |p| >= 4 && p[..3] == "(?:" && p[|p| - 1] == ')'
      && Split(p[3..|p| - 1], "|") == ignored
  {
    var inner := Join(ignored, "|");
    var p := "(?:" + inner + ")";
    assert p[3..|p| - 1] == inner;
    SplitJoin(ignored, "|");
  }

  /** The wrapper `Registry`: the controller-tools registry and the
      compiled ignore pattern (`None` is a nil regexp). */
  class Registry {
    var kube: KubeRegistry
    var ignoredKubeMarkersRegex: Option<string>

    constructor (kube: KubeRegistry, pattern: Option<string>)
      ensures this.kube == kube && ignoredKubeMarkersRegex == pattern
    {
      this.kube := kube;
      ignoredKubeMarkersRegex := pattern;
    }
  }

  /** `NewRegistry`: a fresh registry, the ignore pattern, and every
      definition registered; the registry is returned with the
      registration error, if any. */
  method NewRegistry(ignored: seq<string>, all: seq<DefinitionWithHelp>) returns (r: Registry, err: Option<string>)
    ensures fresh(r) && fresh(r.kube)
    ensures r.ignoredKubeMarkersRegex == IgnorePattern(ignored)
    ensures RegisterEntries(EmptyStore, Entries(all)).Ok? ==>
      err.None? && r.kube.store == RegisterEntries(EmptyStore, Entries(all)).value
    ensures RegisterEntries(EmptyStore, Entries(all)).Err? ==> err.Some?
  {
    var pattern: Option<string> := None;
    if |ignored| > 0 {
      pattern := Some("(?:" + Join(ignored, "|") + ")");
    }
    var kube := new KubeRegistry();
    r := new Registry(kube, pattern);
    err := RegisterAll(kube, all);
  }
}
