/** The protobuf descriptors the generator reads, as a well-founded tree:
    a message holds its fields, and a message- or enum-typed field holds
    the descriptor of its type. The names the generator derives from them
    (`absoluteName`, `relativeName`, `fieldName`) are defined here. */
module Descriptors {
  import opened Wrappers
  import opened GoStrings

  /** A protobuf enum: its name path inside the package (outer messages
      first), its package name, its leading comment and its value names
      in declaration order. */
  datatype EnumDesc = EnumDesc(path: seq<string>, pkg: string, comment: string, values: seq<string>)

  /** A protobuf message; `mapEntry` is the `map_entry` option of the
      synthetic message protoc emits for a map field. */
  datatype Message = Message(path: seq<string>, pkg: string, mapEntry: bool, comment: string, fields: seq<Field>)

  /** A field; `oneofIndex` is the index of the oneof (including the
      synthetic one of a proto3 `optional` field) the field belongs to. */
  datatype Field = Field(
    jsonName: string,
    kind: FieldKind,
    repeated: bool,
    proto3Optional: bool,
    oneofIndex: Option<int>,
    comment: string)

  /** `FieldDescriptorProto.Type`, group excepted; the message and enum
      kinds carry the descriptor of the field's type. */
  datatype FieldKind =
    | TDouble | TFloat
    | TInt64 | TUint64 | TInt32 | TFixed64 | TFixed32
    | TBool | TString | TBytes
    | TUint32 | TSfixed32 | TSfixed64 | TSint32 | TSint64
    | TMessage(msg: Message)
    | TEnum(enum: EnumDesc)

  /** A descriptor that has a name: what `protomodel.CoreDesc` offers the
      naming functions. */
  datatype Named = NamedMessage(m: Message) | NamedEnum(e: EnumDesc)

  function PathOf(d: Named): seq<string> {
    match d
    case NamedMessage(m) => m.path
    case NamedEnum(e) => e.path
  }

  function PackageOf(d: Named): string {
    match d
    case NamedMessage(m) => m.pkg
    case NamedEnum(e) => e.pkg
  }

  /** `protomodel.DottedName`: the name path joined by dots. */
  function DottedName(d: Named): (r: string)
    ensures |PathOf(d)| == 1 ==> r == PathOf(d)[0]
  {
    Join(PathOf(d), ".")
  }

  /** `absoluteName`: the package name, a dot, the dotted name. */
  function AbsoluteName(d: Named): (r: string)
    ensures r == PackageOf(d) + "." + DottedName(d)
    ensures |r| > |PackageOf(d)| && r[|PackageOf(d)|] == '.'
  {
    PackageOf(d) + "." + DottedName(d)
  }

  /** `relativeName`: the dotted name inside the current package, the
      absolute name outside it. Packages are compared by name. */
  function RelativeName(currentPackage: string, d: Named): (r: string)
    ensures PackageOf(d) == currentPackage ==> r == DottedName(d)
    ensures PackageOf(d) != currentPackage ==> r == AbsoluteName(d)
  {
    if PackageOf(d) == currentPackage then DottedName(d) else AbsoluteName(d)
  }

  /** A message is top-level (its `Parent` is nil) when its path has a
      single name. */
  predicate TopLevel(m: Message) {
    |m.path| == 1
  }

  /** `fieldName`: the field's JSON name. */
  function FieldName(f: Field): (r: string)
    ensures r == f.jsonName
  {
    f.jsonName
  }

  /** The two names agree up to the package: the absolute name is the
      package followed by the relative name inside that package. */
  lemma AbsoluteIsPackageDotRelative(d: Named)
    ensures AbsoluteName(d) == PackageOf(d) + "." + RelativeName(PackageOf(d), d)
    ensures forall p :: RelativeName(p, d) == AbsoluteName(d) || RelativeName(p, d) == DottedName(d)
  {
  }

  /** The relative name is the short, dotted name exactly when the
      descriptor lives in the current package, and the absolute name
      exactly when it does not. */
  lemma RelativeNameShortExactlyInPackage(p: string, d: Named)
    ensures RelativeName(p, d) == DottedName(d) <==> PackageOf(d) == p
    ensures RelativeName(p, d) != AbsoluteName(d) <==> PackageOf(d) == p
  {
    assert |AbsoluteName(d)| > |DottedName(d)|;
  }

  /** Within one package the absolute name identifies the descriptor's
      name path, provided no name in a path contains a dot. */
  lemma AbsoluteNameIdentifiesPath(d1: Named, d2: Named)
    requires PackageOf(d1) == PackageOf(d2)
    requires |PathOf(d1)| >= 1 && |PathOf(d2)| >= 1
    requires forall k :: 0 <= k < |PathOf(d1)| ==> '.' !in PathOf(d1)[k]
    requires forall k :: 0 <= k < |PathOf(d2)| ==> '.' !in PathOf(d2)[k]
    ensures AbsoluteName(d1) == AbsoluteName(d2) <==> PathOf(d1) == PathOf(d2)
  {
    if AbsoluteName(d1) == AbsoluteName(d2) {
      var n := |PackageOf(d1)| + 1;
      assert AbsoluteName(d1)[n..] == DottedName(d1);
      assert AbsoluteName(d2)[n..] == DottedName(d2);
      SplitJoin(PathOf(d1), ".");
      SplitJoin(PathOf(d2), ".");
    }
  }
}
