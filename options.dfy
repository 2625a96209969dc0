/** The plugin's command-line parameter string: `extractParams` breaks
    `key=value,key=value` into a map, and `parseParameters` sets the
    generation options from that map, one key at a time, in Go's map
    iteration order.  That order is unspecified, so every operation here
    takes it as an explicit sequence of the map's keys. */
module Options {
  import opened Wrappers
  import opened GoStrings

  // ---------------------------------------------------------------------
  // extractParams

  /** One comma-separated segment split at its first `=`: the key and the
      value; a segment without `=` is a key with the empty value. */
  function Segment(p: string): (string, string) {
    var i := Index(p, "=");
    if i < 0 then (p, "") else (p[..i], p[i + 1..])
  }

  /** A segment with `=` is its key, the `=` and its value, and the key
      lacks `=`; a segment without `=` is all key. */
  lemma SegmentParts(p: string)
    ensures '=' in p ==> Segment(p).0 + "=" + Segment(p).1 == p && '=' !in Segment(p).0
    ensures '=' !in p ==> Segment(p) == (p, "")
  {
    var i := Index(p, "=");
    if i < 0 {
      forall x | 0 <= x < |p| ensures p[x] != '=' {
        assert !OccursAt(p, "=", x);
        assert p[x..x + 1][0] == p[x];
      }
    } else {
      assert p[i..i + 1] == "=";
      assert p == p[..i] + "=" + p[i + 1..];
      forall x | 0 <= x < i ensures p[x] != '=' {
        assert !OccursAt(p, "=", x);
        assert p[x..x + 1][0] == p[x];
      }
    }
  }

  /** The map after one segment; an empty segment adds nothing. */
  function AddSegment(m: map<string, string>, p: string): map<string, string> {
    if p == "" then m else m[Segment(p).0 := Segment(p).1]
  }

  /** The map after the first `n` segments. */
  function ParamsUpTo(segs: seq<string>, n: nat): map<string, string>
    requires n <= |segs|
  {
    if n == 0 then map[] else AddSegment(ParamsUpTo(segs, n - 1), segs[n - 1])
  }

  /** What `extractParams` returns for `parameter`. */
  function ParamsOf(parameter: string): map<string, string> {
    var segs := Split(parameter, ",");
    ParamsUpTo(segs, |segs|)
  }

  /** `extractParams`. */
  method ExtractParams(parameter: string) returns (m: map<string, string>)
    ensures m == ParamsOf(parameter)
  {
    var segs := Split(parameter, ",");
    m := map[];
    for n := 0 to |segs|
      invariant m == ParamsUpTo(segs, n)
    {
      var p := segs[n];
      ParamsNext(segs, n);
      if p == "" {
        continue;
      }
      var i := Index(p, "=");
      if i < 0 {
        m := m[p := ""];
      } else {
        m := m[p[..i] := p[i + 1..]];
      }
    }
  }

  lemma ParamsNext(segs: seq<string>, n: nat)
    requires n < |segs|
    ensures ParamsUpTo(segs, n + 1) == AddSegment(ParamsUpTo(segs, n), segs[n])
  {
  }

  /** The keys are those of the non-empty segments: an empty segment
      contributes nothing. */
  lemma ParamKeys(segs: seq<string>, n: nat)
    requires n <= |segs|
    ensures forall k :: (k in ParamsUpTo(segs, n)
      <==> exists j :: 0 <= j < n && segs[j] != "" && Segment(segs[j]).0 == k)
  {
    ParamKeySet(segs, n);
    SegmentKeysIn(segs, n);
  }

  /** The keys of the non-empty segments among the first `n`. */
  function SegmentKeys(segs: seq<string>, n: nat): set<string>
    requires n <= |segs|
  {
    if n == 0 then {} else SegmentKeys(segs, n - 1) + (if segs[n - 1] != "" then {Segment(segs[n - 1]).0} else {})
  }

  lemma {:induction false} ParamKeySet(segs: seq<string>, n: nat)
    requires n <= |segs|
    ensures ParamsUpTo(segs, n).Keys == SegmentKeys(segs, n)
  {
    if n > 0 {
      ParamKeySet(segs, n - 1);
    }
  }

  lemma {:induction false} SegmentKeysIn(segs: seq<string>, n: nat)
    requires n <= |segs|
    ensures forall k :: (k in SegmentKeys(segs, n)
      <==> exists j :: 0 <= j < n && segs[j] != "" && Segment(segs[j]).0 == k)
  {
    if n > 0 {
      SegmentKeysIn(segs, n - 1);
      forall k | k in SegmentKeys(segs, n)
        ensures exists j :: 0 <= j < n && segs[j] != "" && Segment(segs[j]).0 == k
      {
        if k !in SegmentKeys(segs, n - 1) {
          assert segs[n - 1] != "" && Segment(segs[n - 1]).0 == k;
        }
      }
    }
  }

  /** A key's value is that of its last segment: a later occurrence of a
      key overwrites an earlier one. */
  lemma {:induction false} LastSegmentWins(segs: seq<string>, n: nat, j: nat)
    requires j < n <= |segs| && segs[j] != ""
    requires forall j' :: j < j' < n && segs[j'] != "" ==> Segment(segs[j']).0 != Segment(segs[j]).0
    ensures Segment(segs[j]).0 in ParamsUpTo(segs, n)
    ensures ParamsUpTo(segs, n)[Segment(segs[j]).0] == Segment(segs[j]).1
  {
    if j < n - 1 {
      LastSegmentWins(segs, n - 1, j);
    }
  }

  /** Keys and values never contain a comma, and keys never an `=`. */
  lemma NoCommaInParams(parameter: string)
    ensures forall k :: k in ParamsOf(parameter) ==>
      ',' !in k && '=' !in k && ',' !in ParamsOf(parameter)[k]
  {
    var segs := Split(parameter, ",");
    SplitPiecesLackSeparator(parameter, ",");
    forall j | 0 <= j < |segs| ensures ',' !in segs[j] {
      forall x | 0 <= x < |segs[j]| ensures segs[j][x] != ',' {
        assert !OccursAt(segs[j], ",", x);
        assert segs[j][x..x + 1][0] == segs[j][x];
      }
    }
    ParamsLackComma(segs, |segs|);
  }

  lemma {:induction false} ParamsLackComma(segs: seq<string>, n: nat)
    requires n <= |segs| && forall j :: 0 <= j < |segs| ==> ',' !in segs[j]
    ensures forall k :: k in ParamsUpTo(segs, n) ==>
      ',' !in k && '=' !in k && ',' !in ParamsUpTo(segs, n)[k]
  {
    if n > 0 {
      ParamsLackComma(segs, n - 1);
      AddSegmentLacksComma(ParamsUpTo(segs, n - 1), segs[n - 1]);
    }
  }

  lemma AddSegmentLacksComma(m: map<string, string>, p: string)
    requires ',' !in p && forall k :: k in m ==> ',' !in k && '=' !in k && ',' !in m[k]
    ensures forall k :: k in AddSegment(m, p) ==> ',' !in k && '=' !in k && ',' !in AddSegment(m, p)[k]
  {
    if p != "" {
      SegmentPartsLackComma(p);
    }
  }

  lemma SegmentPartsLackComma(p: string)
    requires ',' !in p
    ensures ',' !in Segment(p).0 && '=' !in Segment(p).0 && ',' !in Segment(p).1
  {
    SegmentParts(p);
    var (k, v) := Segment(p);
    if '=' in p {
      assert forall x :: 0 <= x < |k| ==> k[x] == p[x];
      assert forall x :: 0 <= x < |v| ==> v[x] == p[|k| + 1 + x];
    }
  }

  /** A segment made of a key without `=`, an `=` and any value (which may
      contain `=` itself) splits back into that key and value. */
  lemma SegmentOfPair(k: string, v: string)
    requires '=' !in k
    ensures Segment(k + "=" + v) == (k, v)
  {
    var p := k + "=" + v;
    SegmentParts(p);
    assert p[|k|] == '=';
    var (a, b) := Segment(p);
    assert a == p[..|k|] == k;
    assert b == p[|k| + 1..] == v;
  }

  /** Rendering `key=value` pairs. */
  function Rendered(ps: seq<(string, string)>): seq<string> {
    if ps == [] then [] else Rendered(ps[..|ps| - 1]) + [ps[|ps| - 1].0 + "=" + ps[|ps| - 1].1]
  }

  /** The map of the pairs, a later pair overwriting an earlier one. */
  function PairsMap(ps: seq<(string, string)>): map<string, string> {
    if ps == [] then map[] else PairsMap(ps[..|ps| - 1])[ps[|ps| - 1].0 := ps[|ps| - 1].1]
  }

  /** `extractParams` reads back a comma-joined list of `key=value` pairs
      whose keys lack `,` and `=` and whose values lack `,`. */
  lemma ParamsOfRendered(ps: seq<(string, string)>)
    requires forall i :: 0 <= i < |ps| ==> ',' !in ps[i].0 && '=' !in ps[i].0 && ',' !in ps[i].1
    ensures ParamsOf(Join(Rendered(ps), ",")) == PairsMap(ps)
  {
    if ps == [] {
      NoParams();
    } else {
      RenderedPieces(ps);
      SplitJoin(Rendered(ps), ",");
      RenderedParams(ps, |ps|);
      assert ps[..|ps|] == ps;
    }
  }

  /** The empty parameter string gives the empty map. */
  lemma NoParams()
    ensures ParamsOf("") == map[]
  {
    assert Split("", ",") == [""];
  }

  lemma {:induction false} RenderedPieces(ps: seq<(string, string)>)
    requires forall i :: 0 <= i < |ps| ==> ',' !in ps[i].0 && ',' !in ps[i].1
    ensures |Rendered(ps)| == |ps|
    ensures forall i :: 0 <= i < |ps| ==> Rendered(ps)[i] == ps[i].0 + "=" + ps[i].1
    ensures forall i :: 0 <= i < |ps| ==> ',' !in Rendered(ps)[i]
    decreases |ps|
  {
    if ps != [] {
      RenderedPieces(ps[..|ps| - 1]);
    }
  }

  lemma {:induction false} RenderedParams(ps: seq<(string, string)>, n: nat)
    requires n <= |ps| && |Rendered(ps)| == |ps|
    requires forall i :: 0 <= i < |ps| ==> '=' !in ps[i].0 && Rendered(ps)[i] == ps[i].0 + "=" + ps[i].1
    ensures ParamsUpTo(Rendered(ps), n) == PairsMap(ps[..n])
  {
    if n > 0 {
      RenderedParams(ps, n - 1);
      RenderedSegment(ps, n - 1);
      ParamsStep(Rendered(ps), n, ps[n - 1], PairsMap(ps[..n - 1]));
      PairsMapPrefix(ps, n);
    }
  }

  lemma ParamsStep(segs: seq<string>, n: nat, kv: (string, string), prev: map<string, string>)
    requires 0 < n <= |segs| && segs[n - 1] != "" && Segment(segs[n - 1]) == kv && ParamsUpTo(segs, n - 1) == prev
    ensures ParamsUpTo(segs, n) == prev[kv.0 := kv.1]
  {
  }

  lemma RenderedSegment(ps: seq<(string, string)>, j: nat)
    requires j < |ps| && |Rendered(ps)| == |ps|
    requires '=' !in ps[j].0 && Rendered(ps)[j] == ps[j].0 + "=" + ps[j].1
    ensures Rendered(ps)[j] != "" && Segment(Rendered(ps)[j]) == ps[j]
  {
    SegmentOfPair(ps[j].0, ps[j].1);
  }

  lemma PairsMapPrefix(ps: seq<(string, string)>, n: nat)
    requires 0 < n <= |ps|
    ensures PairsMap(ps[..n]) == PairsMap(ps[..n - 1])[ps[n - 1].0 := ps[n - 1].1]
  {
    assert ps[..n][..n - 1] == ps[..n - 1];
  }

  // ---------------------------------------------------------------------
  // The options and parseParameters

  /** The fields of `generationOptions`. */
  datatype Settings = Settings(
    perFile: bool,
    singleFile: bool,
    yaml: bool,
    useRef: bool,
    includeDescription: bool,
    enumAsIntOrString: bool,
    messagesWithEmptySchema: seq<string>,
    strictProto3Optional: bool)

  /** `newGenerationOptions`: descriptions on, everything else off or
      empty. */
  function Defaults(): Settings {
    Settings(false, false, false, false, true, false, [], false)
  }

  /** `strconv.ParseBool`. */
  function ParseBool(s: string): Option<bool> {
    if s == "1" || s == "t" || s == "T" || s == "TRUE" || s == "true" || s == "True" then Some(true)
    else if s == "0" || s == "f" || s == "F" || s == "FALSE" || s == "false" || s == "False" then Some(false)
    else None
  }

  /** `strconv.FormatBool`. */
  function FormatBool(b: bool): string {
    if b then "true" else "false"
  }

  /** `ParseBool` reads back what `FormatBool` writes. */
  lemma ParseFormattedBool(b: bool)
    ensures ParseBool(FormatBool(b)) == Some(b)
  {
  }

  /** The keys `parseParameters` knows. */
  datatype Key = PerFile | SingleFile | Yaml | UseRef | IncludeDescription
               | EnumAsIntOrString | AdditionalEmptySchema | StrictProto3Optional

  function KeyName(key: Key): string {
    match key
    case PerFile => "per_file"
    case SingleFile => "single_file"
    case Yaml => "yaml"
    case UseRef => "use_ref"
    case IncludeDescription => "include_description"
    case EnumAsIntOrString => "enum_as_int_or_string"
    case AdditionalEmptySchema => "additional_empty_schema"
    case StrictProto3Optional => "strict_proto3_optional"
  }

  /** The key a parameter name stands for, tried in the order of the
      branches of `parseParameters`. */
  function KeyNamed(k: string): (r: Option<Key>)
    ensures r.Some? ==> KeyName(r.value) == k
  {
    if k == "per_file" then Some(PerFile)
    else if k == "single_file" then Some(SingleFile)
    else if k == "yaml" then Some(Yaml)
    else if k == "use_ref" then Some(UseRef)
    else if k == "include_description" then Some(IncludeDescription)
    else if k == "enum_as_int_or_string" then Some(EnumAsIntOrString)
    else if k == "additional_empty_schema" then Some(AdditionalEmptySchema)
    else if k == "strict_proto3_optional" then Some(StrictProto3Optional)
    else None
  }

  /** Every key is found by its name, so no two keys share a name and a
      name no key has is unknown. */
  lemma KeyNamedName(key: Key)
    ensures KeyNamed(KeyName(key)) == Some(key)
  {
  }

  lemma KeyNameInjective()
    ensures forall a: Key, b: Key :: KeyName(a) == KeyName(b) ==> a == b
  {
    forall a: Key, b: Key | KeyName(a) == KeyName(b) ensures a == b {
      KeyNamedName(a);
      KeyNamedName(b);
    }
  }

  lemma UnknownName(k: string)
    ensures KeyNamed(k).None? <==> forall key :: KeyName(key) != k
  {
    if KeyNamed(k).None? {
      forall key ensures KeyName(key) != k {
        KeyNamedName(key);
      }
    }
  }

  /** The keys taking a boolean value. */
  predicate TakesBool(key: Key) {
    !key.Yaml? && !key.AdditionalEmptySchema?
  }

  predicate IsKnownKey(k: string) {
    KeyNamed(k).Some?
  }

  /** A key and value that `parseParameters` accepts on their own. */
  predicate Accepted(k: string, v: string) {
    KeyNamed(k).Some? && (TakesBool(KeyNamed(k).value) ==> ParseBool(v).Some?)
  }

  function UnknownValue(v: string, k: string): string {
    "unknown value '" + v + "' for " + k
  }

  function UnknownArgument(k: string): string {
    "unknown argument '" + k + "' specified"
  }

  const PerFileClash: string := "output is already to be generated per file, cannot output to a single file"

  function ParsedBool(key: Key, v: string): Result<bool> {
    match ParseBool(v)
    case None => Err(UnknownValue(v, KeyName(key)))
    case Some(b) => Ok(b)
  }

  /** One key of `parseParameters` without the per-file check: a boolean
      option takes its parsed value, `yaml` is set whatever its value,
      `additional_empty_schema` is split on `+`, and any other key is
      rejected. */
  function SetOption(o: Settings, k: string, v: string): Result<Settings> {
    match KeyNamed(k)
    case None => Err(UnknownArgument(k))
    case Some(key) => SetKey(o, key, v)
  }

  function SetKey(o: Settings, key: Key, v: string): Result<Settings> {
    match key
    case PerFile => var b :- ParsedBool(key, v); Ok(o.(perFile := b))
    case SingleFile => var b :- ParsedBool(key, v); Ok(o.(singleFile := b))
    case Yaml => Ok(o.(yaml := true))
    case UseRef => var b :- ParsedBool(key, v); Ok(o.(useRef := b))
    case IncludeDescription => var b :- ParsedBool(key, v); Ok(o.(includeDescription := b))
    case EnumAsIntOrString => var b :- ParsedBool(key, v); Ok(o.(enumAsIntOrString := b))
    case AdditionalEmptySchema => Ok(o.(messagesWithEmptySchema := Split(v, "+")))
    case StrictProto3Optional => var b :- ParsedBool(key, v); Ok(o.(strictProto3Optional := b))
  }

  /** Whether the keys `keys` of `p` give `key`. */
  predicate Given(p: map<string, string>, keys: set<string>, key: Key) {
    KeyName(key) in keys && KeyName(key) in p
  }

  /** The boolean option `key` after the keys `keys` of `p`, `dflt` before. */
  function BoolAfter(p: map<string, string>, keys: set<string>, key: Key, dflt: bool): bool {
    if Given(p, keys, key) && ParseBool(p[KeyName(key)]).Some? then ParseBool(p[KeyName(key)]).value else dflt
  }

  /** The reference reading of a parameter map: every option the keys
      `keys` of `p` name takes the value `p` gives it, the others keep
      their value in `o`. */
  function OverriddenBy(o: Settings, p: map<string, string>, keys: set<string>): Settings {
    Settings(
      BoolAfter(p, keys, PerFile, o.perFile),
      BoolAfter(p, keys, SingleFile, o.singleFile),
      o.yaml || Given(p, keys, Yaml),
      BoolAfter(p, keys, UseRef, o.useRef),
      BoolAfter(p, keys, IncludeDescription, o.includeDescription),
      BoolAfter(p, keys, EnumAsIntOrString, o.enumAsIntOrString),
      if Given(p, keys, AdditionalEmptySchema)
      then Split(p[KeyName(AdditionalEmptySchema)], "+") else o.messagesWithEmptySchema,
      BoolAfter(p, keys, StrictProto3Optional, o.strictProto3Optional))
  }

  /** The options after all of `p`. */
  function Overridden(o: Settings, p: map<string, string>): Settings {
    OverriddenBy(o, p, p.Keys)
  }

  /** `SetOption` succeeds exactly on an accepted key and value, and then
      sets that key's option as the reference reading does. */
  lemma SetOptionMeaning(o: Settings, p: map<string, string>, k: string)
    requires k in p
    ensures SetOption(o, k, p[k]).Ok? <==> Accepted(k, p[k])
    ensures SetOption(o, k, p[k]).Ok? ==> SetOption(o, k, p[k]).value == OverriddenBy(o, p, {k})
  {
    if KeyNamed(k).Some? {
      var key := KeyNamed(k).value;
      KeyNameInjective();
      SetKeyMeaning(o, p, {k}, key);
    }
  }

  lemma SetKeyMeaning(o: Settings, p: map<string, string>, keys: set<string>, key: Key)
    requires KeyName(key) in p
    requires forall other: Key :: Given(p, keys, other) <==> other == key
    ensures SetKey(o, key, p[KeyName(key)]).Ok? ==> SetKey(o, key, p[KeyName(key)]).value == OverriddenBy(o, p, keys)
  {
    assert Given(p, keys, key);
    match key
    case PerFile =>
    case SingleFile =>
    case Yaml =>
    case UseRef =>
    case IncludeDescription =>
    case EnumAsIntOrString =>
    case AdditionalEmptySchema =>
    case StrictProto3Optional =>
  }

  /** Overriding by no key changes nothing. */
  lemma OverrideNothing(o: Settings, p: map<string, string>)
    ensures OverriddenBy(o, p, {}) == o
  {
  }

  /** Overriding by `a` and then by `b` is overriding by both. */
  lemma OverrideTwice(o: Settings, p: map<string, string>, a: set<string>, b: set<string>)
    ensures OverriddenBy(OverriddenBy(o, p, a), p, b) == OverriddenBy(o, p, a + b)
  {
  }

  /** A boolean option given without `=` (so with the empty value) is
      rejected; `yaml` and `additional_empty_schema` are not. */
  lemma BareFlag(o: Settings, k: string)
    ensures KeyNamed(k).Some? && TakesBool(KeyNamed(k).value) ==> SetOption(o, k, "") == Err(UnknownValue("", k))
    ensures SetOption(o, "yaml", "") == Ok(o.(yaml := true))
    ensures SetOption(o, "additional_empty_schema", "") == Ok(o.(messagesWithEmptySchema := [""]))
  {
    assert Split("", "+") == [""];
  }

  /** `additional_empty_schema` reads back a `+`-joined list of names that
      lack `+`. */
  lemma EmptySchemaNames(o: Settings, names: seq<string>)
    requires |names| >= 1 && forall i :: 0 <= i < |names| ==> '+' !in names[i]
    ensures SetOption(o, "additional_empty_schema", Join(names, "+")) == Ok(o.(messagesWithEmptySchema := names))
  {
    SplitJoin(names, "+");
  }

  /** Every key and value from position `i` of `order` on is accepted. */
  predicate AcceptedFrom(p: map<string, string>, order: seq<string>, i: nat)
    requires Covered(order, p)
  {
    forall j :: i <= j < |order| ==> Accepted(order[j], p[order[j]])
  }

  /** The keys from position `i` of `order` on. */
  function KeysFrom(order: seq<string>, i: nat): set<string>
    requires i <= |order|
    decreases |order| - i
  {
    if i == |order| then {} else {order[i]} + KeysFrom(order, i + 1)
  }

  lemma {:induction false} KeysFromIn(order: seq<string>, i: nat)
    requires i <= |order|
    ensures forall k :: k in KeysFrom(order, i) <==> exists j :: i <= j < |order| && order[j] == k
    decreases |order| - i
  {
    if i < |order| {
      KeysFromIn(order, i + 1);
    }
  }

  /** Every key of `order` is a key of `p`. */
  predicate Covered(order: seq<string>, p: map<string, string>) {
    forall j :: 0 <= j < |order| ==> order[j] in p
  }

  /** `order` is an iteration order of `p`: each key exactly once. */
  predicate Enumerates(order: seq<string>, p: map<string, string>) {
    (forall k :: k in p ==> k in order)
    && Covered(order, p)
    && (forall i, j :: 0 <= i < j < |order| ==> order[i] != order[j])
  }

  lemma EnumeratedKeys(order: seq<string>, p: map<string, string>)
    requires Enumerates(order, p)
    ensures Covered(order, p) && KeysFrom(order, 0) == p.Keys
  {
    KeysFromIn(order, 0);
    forall j | 0 <= j < |order| ensures order[j] in p {
      assert order[j] in order;
    }
    forall k | k in p ensures k in KeysFrom(order, 0) {
      assert k in order;
      var j :| 0 <= j < |order| && order[j] == k;
    }
  }

  /** One iteration of the loop of `parseParameters`, as written: after a
      `single_file` key, whatever its value, the check fails when
      `perFile` is already set. */
  function ParseStep(o: Settings, k: string, v: string): (Settings, Option<string>) {
    match SetOption(o, k, v)
    case Err(e) => (o, Some(e))
    case Ok(o1) => if KeyNamed(k) == Some(SingleFile) && o1.perFile then (o1, Some(PerFileClash)) else (o1, None)
  }

  /** The loop of `parseParameters` from position `i` of the iteration
      order: the options and the error it returns, if any; the options set
      before an error stay set. */
  function ParseFrom(o: Settings, p: map<string, string>, order: seq<string>, i: nat): (Settings, Option<string>)
    requires i <= |order| && Covered(order, p)
    decreases |order| - i
  {
    if i == |order| then (o, None)
    else
      var (o1, e) := ParseStep(o, order[i], p[order[i]]);
      if e.Some? then (o1, e) else ParseFrom(o1, p, order, i + 1)
  }

  /** One step of the loop, as written: it fails on a key or value that
      is not accepted, and otherwise sets that key's option as the
      reference reading does and fails only at the per-file check of a
      `single_file` key. */
  lemma ParseStepMeaning(o: Settings, p: map<string, string>, k: string)
    requires k in p
    ensures ParseStep(o, k, p[k]).1.None? ==> Accepted(k, p[k])
    ensures Accepted(k, p[k]) ==> ParseStep(o, k, p[k]).0 == OverriddenBy(o, p, {k})
    ensures Accepted(k, p[k]) && ParseStep(o, k, p[k]).1.Some? ==>
      ParseStep(o, k, p[k]).1 == Some(PerFileClash) && k == KeyName(SingleFile)
  {
    SetOptionMeaning(o, p, k);
  }

  lemma {:induction false} ParseFromOutcome(o: Settings, p: map<string, string>, order: seq<string>, i: nat)
    requires i <= |order| && Covered(order, p)
    ensures ParseFrom(o, p, order, i).1.None? ==>
      AcceptedFrom(p, order, i) && ParseFrom(o, p, order, i).0 == OverriddenBy(o, p, KeysFrom(order, i))
    ensures AcceptedFrom(p, order, i) && ParseFrom(o, p, order, i).1.Some? ==>
      ParseFrom(o, p, order, i).1 == Some(PerFileClash) && KeyName(SingleFile) in KeysFrom(order, i)
    decreases |order| - i
  {
    if i == |order| {
      OverrideNothing(o, p);
    } else {
      var k := order[i];
      ParseStepMeaning(o, p, k);
      var step := ParseStep(o, k, p[k]);
      if step.1.None? {
        ParseFromOutcome(step.0, p, order, i + 1);
        ParseFromNext(o, p, order, i, step.0);
      } else {
        assert ParseFrom(o, p, order, i) == step;
      }
    }
  }

  lemma ParseFromNext(o: Settings, p: map<string, string>, order: seq<string>, i: nat, o1: Settings)
    requires i < |order| && Covered(order, p) && ParseStep(o, order[i], p[order[i]]) == (o1, None)
    requires Accepted(order[i], p[order[i]]) && o1 == OverriddenBy(o, p, {order[i]})
    requires ParseFrom(o1, p, order, i + 1).1.None? ==>
      AcceptedFrom(p, order, i + 1) && ParseFrom(o1, p, order, i + 1).0 == OverriddenBy(o1, p, KeysFrom(order, i + 1))
    requires AcceptedFrom(p, order, i + 1) && ParseFrom(o1, p, order, i + 1).1.Some? ==>
      ParseFrom(o1, p, order, i + 1).1 == Some(PerFileClash) && KeyName(SingleFile) in KeysFrom(order, i + 1)
    ensures ParseFrom(o, p, order, i).1.None? ==>
      AcceptedFrom(p, order, i) && ParseFrom(o, p, order, i).0 == OverriddenBy(o, p, KeysFrom(order, i))
    ensures AcceptedFrom(p, order, i) && ParseFrom(o, p, order, i).1.Some? ==>
      ParseFrom(o, p, order, i).1 == Some(PerFileClash) && KeyName(SingleFile) in KeysFrom(order, i)
  {
    OverrideTwice(o, p, {order[i]}, KeysFrom(order, i + 1));
  }

  /** What `parseParameters` promises whatever the iteration order: on
      success every key is known, every boolean value parses, and every
      option is its default overridden by its own key; when every key and
      value is acceptable, the only failure left is the per-file check,
      which needs a `single_file` key. */
  lemma ParseParametersOutcome(o: Settings, p: map<string, string>, order: seq<string>)
    requires Enumerates(order, p)
    ensures Covered(order, p)
    ensures ParseFrom(o, p, order, 0).1.None? ==>
      (forall k :: k in p ==> Accepted(k, p[k])) && ParseFrom(o, p, order, 0).0 == Overridden(o, p)
    ensures (forall k :: k in p ==> Accepted(k, p[k])) && ParseFrom(o, p, order, 0).1.Some? ==>
      ParseFrom(o, p, order, 0).1 == Some(PerFileClash) && KeyName(SingleFile) in p
  {
    EnumeratedKeys(order, p);
    ParseFromOutcome(o, p, order, 0);
    KeysFromIn(order, 0);
    if ParseFrom(o, p, order, 0).1.None? {
      forall k | k in p ensures Accepted(k, p[k]) {
        assert k in order;
        var j :| 0 <= j < |order| && order[j] == k;
      }
    }
  }

  /** An unknown key is always rejected, whatever the order. */
  lemma UnknownKeyRejected(o: Settings, p: map<string, string>, order: seq<string>, k: string)
    requires Enumerates(order, p) && k in p && !IsKnownKey(k)
    ensures Covered(order, p) && ParseFrom(o, p, order, 0).1.Some?
  {
    ParseParametersOutcome(o, p, order);
  }

  /** The per-file check depends on the iteration order: with both
      `per_file=true` and `single_file=true`, visiting `per_file` first
      fails, visiting `single_file` first succeeds with both set; and
      `single_file=false` after `per_file=true` fails too. */
  lemma PerFileClashDependsOnOrder()
    ensures var p := map["per_file" := "true", "single_file" := "true"];
      ParseFrom(Defaults(), p, ["per_file", "single_file"], 0).1 == Some(PerFileClash)
      && ParseFrom(Defaults(), p, ["single_file", "per_file"], 0)
           == (Defaults().(perFile := true, singleFile := true), None)
    ensures var q := map["per_file" := "true", "single_file" := "false"];
      ParseFrom(Defaults(), q, ["per_file", "single_file"], 0).1 == Some(PerFileClash)
  {
    var p := map["per_file" := "true", "single_file" := "true"];
    var o1 := Defaults().(perFile := true);
    assert ParseStep(Defaults(), "per_file", "true") == (o1, None);
    assert ParseStep(o1, "single_file", "true") == (o1.(singleFile := true), Some(PerFileClash));
    var o2 := Defaults().(singleFile := true);
    assert ParseStep(Defaults(), "single_file", "true") == (o2, None);
    assert ParseStep(o2, "per_file", "true") == (o2.(perFile := true), None);
    assert ParseStep(o1, "single_file", "false") == (o1, Some(PerFileClash));
  }

  /** The parameter map of the example above comes from the parameter
      string `per_file=true,single_file=true`. */
  lemma PerFileClashParameters()
    ensures ParamsOf(Join(Rendered([("per_file", "true"), ("single_file", "true")]), ","))
      == map["per_file" := "true", "single_file" := "true"]
  {
    var ps := [("per_file", "true"), ("single_file", "true")];
    ParamsOfRendered(ps);
    assert ps[..1] == [("per_file", "true")] && ps[..1][..0] == [];
    assert PairsMap(ps) == PairsMap(ps[..1])["single_file" := "true"];
  }

  /** The loop with the per-file check left out. */
  function SetFrom(o: Settings, p: map<string, string>, order: seq<string>, i: nat): (Settings, Option<string>)
    requires i <= |order| && Covered(order, p)
    decreases |order| - i
  {
    if i == |order| then (o, None)
    else match SetOption(o, order[i], p[order[i]])
      case Err(e) => (o, Some(e))
      case Ok(o1) => SetFrom(o1, p, order, i + 1)
  }

  /** The corrected `parseParameters`: every key first, then the per-file
      check on the resulting options. */
  function ParseChecked(o: Settings, p: map<string, string>, order: seq<string>): (Settings, Option<string>)
    requires Covered(order, p)
  {
    var (s, e) := SetFrom(o, p, order, 0);
    if e.None? && s.perFile && s.singleFile then (s, Some(PerFileClash)) else (s, e)
  }

  lemma {:induction false} SetFromOutcome(o: Settings, p: map<string, string>, order: seq<string>, i: nat)
    requires i <= |order| && Covered(order, p)
    ensures SetFrom(o, p, order, i).1.None? <==> AcceptedFrom(p, order, i)
    ensures SetFrom(o, p, order, i).1.None? ==> SetFrom(o, p, order, i).0 == OverriddenBy(o, p, KeysFrom(order, i))
    decreases |order| - i
  {
    if i == |order| {
      OverrideNothing(o, p);
    } else {
      var k := order[i];
      SetOptionMeaning(o, p, k);
      var step := SetOption(o, k, p[k]);
      if step.Ok? {
        SetFromOutcome(step.value, p, order, i + 1);
        SetFromNext(o, p, order, i, step.value);
      } else {
        assert SetFrom(o, p, order, i).1.Some?;
      }
    }
  }

  lemma SetFromNext(o: Settings, p: map<string, string>, order: seq<string>, i: nat, o1: Settings)
    requires i < |order| && Covered(order, p) && SetOption(o, order[i], p[order[i]]) == Ok(o1)
    requires o1 == OverriddenBy(o, p, {order[i]})
    requires SetFrom(o1, p, order, i + 1).1.None? <==> AcceptedFrom(p, order, i + 1)
    requires SetFrom(o1, p, order, i + 1).1.None? ==> SetFrom(o1, p, order, i + 1).0 == OverriddenBy(o1, p, KeysFrom(order, i + 1))
    requires Accepted(order[i], p[order[i]])
    ensures SetFrom(o, p, order, i).1.None? <==> AcceptedFrom(p, order, i)
    ensures SetFrom(o, p, order, i).1.None? ==> SetFrom(o, p, order, i).0 == OverriddenBy(o, p, KeysFrom(order, i))
  {
    SetFromUnfold(o, p, order, i, o1);
    AcceptedFromStep(p, order, i);
    KeysFromStep(o, p, order, i);
  }

  lemma SetFromUnfold(o: Settings, p: map<string, string>, order: seq<string>, i: nat, o1: Settings)
    requires i < |order| && Covered(order, p) && SetOption(o, order[i], p[order[i]]) == Ok(o1)
    ensures SetFrom(o, p, order, i) == SetFrom(o1, p, order, i + 1)
  {
  }

  lemma AcceptedFromStep(p: map<string, string>, order: seq<string>, i: nat)
    requires i < |order| && Covered(order, p)
    ensures AcceptedFrom(p, order, i) <==> Accepted(order[i], p[order[i]]) && AcceptedFrom(p, order, i + 1)
  {
  }

  lemma KeysFromStep(o: Settings, p: map<string, string>, order: seq<string>, i: nat)
    requires i < |order|
    ensures OverriddenBy(OverriddenBy(o, p, {order[i]}), p, KeysFrom(order, i + 1)) == OverriddenBy(o, p, KeysFrom(order, i))
  {
    OverrideTwice(o, p, {order[i]}, KeysFrom(order, i + 1));
  }

  /** The corrected parse fails exactly when a key or value is not
      accepted or both `per_file` and `single_file` end up set, and on
      success gives the reference reading: neither depends on the order. */
  lemma ParseCheckedMeaning(o: Settings, p: map<string, string>, order: seq<string>)
    requires Enumerates(order, p)
    ensures Covered(order, p)
    ensures ParseChecked(o, p, order).1.None? <==>
      (forall k :: k in p ==> Accepted(k, p[k]))
      && !(Overridden(o, p).perFile && Overridden(o, p).singleFile)
    ensures ParseChecked(o, p, order).1.None? ==> ParseChecked(o, p, order).0 == Overridden(o, p)
  {
    EnumeratedKeys(order, p);
    SetFromOutcome(o, p, order, 0);
    KeysFromIn(order, 0);
    if forall k :: k in p ==> Accepted(k, p[k]) {
      forall j | 0 <= j < |order| ensures Accepted(order[j], p[order[j]]) {
        assert order[j] in p;
      }
    } else {
      var k :| k in p && !Accepted(k, p[k]);
      assert k in order;
      var j :| 0 <= j < |order| && order[j] == k;
    }
  }

  /** Two iteration orders of the same map agree on whether the corrected
      parse succeeds and on the options it then gives. */
  lemma ParseCheckedOrderIndependent(o: Settings, p: map<string, string>, order1: seq<string>, order2: seq<string>)
    requires Enumerates(order1, p) && Enumerates(order2, p)
    ensures Covered(order1, p) && Covered(order2, p)
    ensures ParseChecked(o, p, order1).1.None? <==> ParseChecked(o, p, order2).1.None?
    ensures ParseChecked(o, p, order1).1.None? ==> ParseChecked(o, p, order1).0 == ParseChecked(o, p, order2).0
  {
    ParseCheckedMeaning(o, p, order1);
    ParseCheckedMeaning(o, p, order2);
  }

  /** `generationOptions`, whose fields `parseParameters` sets in place. */
  class GenerationOptions {
    var perFile: bool
    var singleFile: bool
    var yaml: bool
    var useRef: bool
    var includeDescription: bool
    var enumAsIntOrString: bool
    var messagesWithEmptySchema: seq<string>
    var strictProto3Optional: bool

    function Value(): Settings
      reads this
    {
      Settings(perFile, singleFile, yaml, useRef, includeDescription, enumAsIntOrString,
               messagesWithEmptySchema, strictProto3Optional)
    }

    /** `newGenerationOptions`. */
    constructor ()
      ensures Value() == Defaults()
    {
      perFile := false;
      singleFile := false;
      yaml := false;
      useRef := false;
      includeDescription := true;
      enumAsIntOrString := false;
      messagesWithEmptySchema := [];
      strictProto3Optional := false;
    }

    /** One key of the loop of `parseParameters`, up to the per-file
        check: on an error nothing changes. */
    method Set(k: string, v: string) returns (err: Option<string>)
      modifies this
      ensures SetOption(old(Value()), k, v).Ok? ==> err.None? && Value() == SetOption(old(Value()), k, v).value
      ensures SetOption(old(Value()), k, v).Err? ==>
        err == Some(SetOption(old(Value()), k, v).error) && Value() == old(Value())
    {
      err := None;
      var key := KeyNamed(k);
      if key.None? {
        return Some(UnknownArgument(k));
      }
      match key.value {
        case PerFile =>
          var b := ParseBool(v);
          if b.None? {
            return Some(UnknownValue(v, "per_file"));
          }
          perFile := b.value;
        case SingleFile =>
          var b := ParseBool(v);
          if b.None? {
            return Some(UnknownValue(v, "single_file"));
          }
          singleFile := b.value;
        case Yaml =>
          yaml := true;
        case UseRef =>
          var b := ParseBool(v);
          if b.None? {
            return Some(UnknownValue(v, "use_ref"));
          }
          useRef := b.value;
        case IncludeDescription =>
          var b := ParseBool(v);
          if b.None? {
            return Some(UnknownValue(v, "include_description"));
          }
          includeDescription := b.value;
        case EnumAsIntOrString =>
          var b := ParseBool(v);
          if b.None? {
            return Some(UnknownValue(v, "enum_as_int_or_string"));
          }
          enumAsIntOrString := b.value;
        case AdditionalEmptySchema =>
          messagesWithEmptySchema := Split(v, "+");
        case StrictProto3Optional =>
          var b := ParseBool(v);
          if b.None? {
            return Some(UnknownValue(v, "strict_proto3_optional"));
          }
          strictProto3Optional := b.value;
      }
    }

    /** `parseParameters`, with the keys of the parameter map visited in
        `order`. */
    method ParseParameters(args: string, order: seq<string>) returns (err: Option<string>)
      requires Enumerates(order, ParamsOf(args))
      modifies this
      ensures Covered(order, ParamsOf(args))
      ensures (Value(), err) == ParseFrom(old(Value()), ParamsOf(args), order, 0)
    {
      var p := ExtractParams(args);
      EnumeratedKeys(order, p);
      for n := 0 to |order|
        invariant ParseFrom(Value(), p, order, n) == ParseFrom(old(Value()), p, order, 0)
      {
        var k := order[n];
        err := Set(k, p[k]);
        if err.Some? {
          return;
        }
        if k == "single_file" && perFile {
          return Some(PerFileClash);
        }
      }
      err := None;
    }

    /** The corrected `parseParameters`: the per-file check runs once,
        after every key. */
    method ParseParametersChecked(args: string, order: seq<string>) returns (err: Option<string>)
      requires Enumerates(order, ParamsOf(args))
      modifies this
      ensures Covered(order, ParamsOf(args))
      ensures (Value(), err) == ParseChecked(old(Value()), ParamsOf(args), order)
    {
      var p := ExtractParams(args);
      EnumeratedKeys(order, p);
      for n := 0 to |order|
        invariant SetFrom(Value(), p, order, n) == SetFrom(old(Value()), p, order, 0)
      {
        var k := order[n];
        err := Set(k, p[k]);
        if err.Some? {
          return;
        }
      }
      if perFile && singleFile {
        return Some(PerFileClash);
      }
      err := None;
    }
  }
}
