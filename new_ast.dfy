/** The syntax tree of the newer generation (src/ast/nodes.rs).

    `Identifier` keeps its span; src/ast/anchored.rs reads its text as a
    field, so the model carries that text beside the span, and
    `IdentifierText` is the span's slice the parser puts there. */
module NewAst {
  import opened Common
  import opened NewSpan
  import LavishAst

  const LavishExt: string := ".lavish"
  const VendorDir: string := "lavish-vendor"

  datatype Identifier = Identifier(span: Span, text: string)

  datatype StringLiteral = StringLiteral(loc: Span, value: string)

  datatype FromDirective = FromDirective(path: StringLiteral)

  datatype Build = Build(name: Identifier, from: Option<FromDirective>)

  datatype Import = Import(name: Identifier, from: Option<FromDirective>)

  datatype RustTargetWrapper = NoWrapper | Mod | Lib

  datatype RustTargetItem = Wrapper(wrapper: RustTargetWrapper)

  datatype RustTarget = RustTarget(wrapper: RustTargetWrapper)

  datatype Target = Rust(rust: RustTarget) | Go | TypeScript

  datatype Rules = Rules(loc: Span, target: Target, builds: seq<Build>)

  datatype Comment = Comment(lines: seq<string>)

  datatype BaseType = Bool | U8 | I8 | U16 | I16 | U32 | I32 | U64 | I64 | F32 | F64 | String | Data | Timestamp

  datatype TypeKind =
    | User
    | Base(base: BaseType)
    | Array(inner: Type)
    | Opt(inner: Type)
    | Map(keys: Type, values: Type)

  datatype Type = Type(span: Span, kind: TypeKind)

  datatype Field = Field(loc: Span, comment: Option<Comment>, name: Identifier, typ: Type)

  datatype Side = Client | Server

  datatype Kind = Request | Notification

  datatype FunctionDecl = FunctionDecl(
    loc: Span,
    comment: Option<Comment>,
    name: Identifier,
    params: seq<Field>,
    results: seq<Field>,
    body: Option<NamespaceBody>,
    kind: Kind,
    side: Side)

  datatype StructDecl = StructDecl(loc: Span, comment: Option<Comment>, name: Identifier, fields: seq<Field>)

  datatype EnumVariant = EnumVariant(loc: Span, comment: Option<Comment>, name: Identifier)

  datatype EnumDecl = EnumDecl(loc: Span, comment: Option<Comment>, name: Identifier, variants: seq<EnumVariant>)

  datatype NamespaceBody = NamespaceBody(
    functions: seq<FunctionDecl>,
    structs: seq<StructDecl>,
    enums: seq<EnumDecl>,
    namespaces: seq<NamespaceDecl>)

  datatype NamespaceDecl = NamespaceDecl(loc: Span, comment: Option<Comment>, name: Identifier, body: NamespaceBody)

  datatype NamespaceItem =
    | FunctionItem(fun: FunctionDecl)
    | StructItem(stru: StructDecl)
    | EnumItem(enu: EnumDecl)
    | NamespaceItem(ns: NamespaceDecl)

  datatype Schema = Schema(loc: Span, imports: seq<Import>, body: NamespaceBody)

  datatype WorkspaceMember = WorkspaceMember(name: string, build: Option<Build>, imports: seq<Import>, schema: Option<Schema>)

  datatype Workspace = Workspace(dir: LavishAst.Path, rules: Rules, members: map<string, WorkspaceMember>)

  /** The target `RustTarget::new` builds from its items. */
  function RustTargetOf(items: seq<RustTargetItem>): RustTarget
  {
    if items == [] then RustTarget(Mod) else RustTarget(items[|items| - 1].wrapper)
  }

  /** `RustTarget::new`: the wrapper starts as `Mod` and each `Wrapper` item
      replaces it, so the last one wins. */
  method NewRustTarget(items: seq<RustTargetItem>) returns (t: RustTarget)
    ensures t == RustTargetOf(items)
    ensures items == [] ==> t.wrapper == Mod
    ensures items != [] ==> t.wrapper == items[|items| - 1].wrapper
  {
    t := RustTarget(Mod);
    for i := 0 to |items|
      invariant i == 0 ==> t.wrapper == Mod
      invariant i > 0 ==> t.wrapper == items[i - 1].wrapper
    {
      match items[i]
      case Wrapper(w) =>
        t := t.(wrapper := w);
    }
  }

  /** `Workspace::resolve`: the same three-step lookup as the older
      generation. */
  function Resolve(ws: Workspace, name: string, pathExists: LavishAst.Path -> bool): (r: Result<LavishAst.Path, string>)
    ensures var sourceName := name + LavishExt;
      var selfPath := ws.dir + [sourceName];
      var vendorPath := ws.dir + [VendorDir, sourceName];
      && (r == Ok(selfPath) <==> pathExists(selfPath))
      && (r == Ok(vendorPath) <==> !pathExists(selfPath) && pathExists(vendorPath))
      && (r.Err? <==> !pathExists(selfPath) && !pathExists(vendorPath))
      && (r.Err? ==> r.error == name + " not found. Try running `lavish fetch`")
  {
    LavishAst.Resolve(ws.dir, name, pathExists)
  }

  /** `Identifier::text`: the text of the identifier's span. */
  function IdentifierText(id: Identifier): (r: string)
    requires ValidSpan(id.span)
    ensures |r| == id.span.len
    ensures forall k :: 0 <= k < |r| ==> r[k] == id.span.source.input[id.span.offset + k]
  {
    Slice(id.span)
  }

  /** `Type::text`: the text of the type's span. */
  function TypeText(t: Type): (r: string)
    requires ValidSpan(t.span)
    ensures |r| == t.span.len
    ensures forall k :: 0 <= k < |r| ==> r[k] == t.span.source.input[t.span.offset + k]
  {
    Slice(t.span)
  }

  /** `Side::other` */
  function Other(s: Side): (r: Side)
    ensures r != s
  {
    if s == Client then Server else Client
  }

  /** Swapping sides twice gives the side back. */
  lemma OtherInvolution(s: Side)
    ensures Other(Other(s)) == s
  {
  }

  /** `Display for Side` */
  function SideName(s: Side): (r: string)
    ensures |r| == 6
  {
    if s == Client then "client" else "server"
  }

  /** The two sides display differently, so the text names the side. */
  lemma SideNameInjective(a: Side, b: Side)
    ensures SideName(a) == SideName(b) <==> a == b
  {
    if a != b {
      assert SideName(a)[0] != SideName(b)[0];
    }
  }

  /** `EnumVariant::hash`: the CRC-32C (Castagnoli) checksum of the name's
      text; the checksum itself is passed in. */
  function VariantHash(v: EnumVariant, crc32c: string -> bv32): bv32
    requires ValidSpan(v.name.span)
  {
    crc32c(IdentifierText(v.name))
  }

  /** Two variants spelled alike hash alike, wherever they appear and
      whatever their comments. */
  lemma VariantHashByName(a: EnumVariant, b: EnumVariant, crc32c: string -> bv32)
    requires ValidSpan(a.name.span) && ValidSpan(b.name.span)
    requires IdentifierText(a.name) == IdentifierText(b.name)
    ensures VariantHash(a, crc32c) == VariantHash(b, crc32c)
  {
  }

  /** `Comment::default` */
  function DefaultComment(): (r: Comment)
    ensures |r.lines| == 0
  {
    Comment([])
  }

  // The order-preserving selections of one kind of item.

  function FunctionsOf(items: seq<NamespaceItem>): seq<FunctionDecl>
  {
    if items == [] then []
    else FunctionsOf(items[..|items| - 1]) + (if items[|items| - 1].FunctionItem? then [items[|items| - 1].fun] else [])
  }

  function StructsOf(items: seq<NamespaceItem>): seq<StructDecl>
  {
    if items == [] then []
    else StructsOf(items[..|items| - 1]) + (if items[|items| - 1].StructItem? then [items[|items| - 1].stru] else [])
  }

  function EnumsOf(items: seq<NamespaceItem>): seq<EnumDecl>
  {
    if items == [] then []
    else EnumsOf(items[..|items| - 1]) + (if items[|items| - 1].EnumItem? then [items[|items| - 1].enu] else [])
  }

  function NamespacesOf(items: seq<NamespaceItem>): seq<NamespaceDecl>
  {
    if items == [] then []
    else NamespacesOf(items[..|items| - 1]) + (if items[|items| - 1].NamespaceItem? then [items[|items| - 1].ns] else [])
  }

  function ItemCount(b: NamespaceBody): nat
  {
    |b.functions| + |b.structs| + |b.enums| + |b.namespaces|
  }

  /** `NamespaceBody::add_item`: the item lands at the end of exactly the list
      of its kind. */
  function AddItem(b: NamespaceBody, item: NamespaceItem): (r: NamespaceBody)
    ensures item.FunctionItem? ==> r == b.(functions := b.functions + [item.fun])
    ensures item.StructItem? ==> r == b.(structs := b.structs + [item.stru])
    ensures item.EnumItem? ==> r == b.(enums := b.enums + [item.enu])
    ensures item.NamespaceItem? ==> r == b.(namespaces := b.namespaces + [item.ns])
    ensures ItemCount(r) == ItemCount(b) + 1
  {
    match item
    case FunctionItem(f) => b.(functions := b.functions + [f])
    case StructItem(s) => b.(structs := b.structs + [s])
    case EnumItem(e) => b.(enums := b.enums + [e])
    case NamespaceItem(n) => b.(namespaces := b.namespaces + [n])
  }

  /** `NamespaceBody::new`: four empty lists, then one `add_item` per item. */
  method NewNamespaceBody(items: seq<NamespaceItem>) returns (b: NamespaceBody)
    ensures b.functions == FunctionsOf(items)
    ensures b.structs == StructsOf(items)
    ensures b.enums == EnumsOf(items)
    ensures b.namespaces == NamespacesOf(items)
    ensures ItemCount(b) == |items|
  {
    b := NamespaceBody([], [], [], []);
    for i := 0 to |items|
      invariant b.functions == FunctionsOf(items[..i])
      invariant b.structs == StructsOf(items[..i])
      invariant b.enums == EnumsOf(items[..i])
      invariant b.namespaces == NamespacesOf(items[..i])
      invariant ItemCount(b) == i
    {
      assert items[..i + 1][..i] == items[..i];
      b := AddItem(b, items[i]);
    }
    assert items[..|items|] == items;
  }

  /** Every item is kept in exactly one list: the four sizes add up to the
      number of items. */
  lemma {:induction false} PartitionCounts(items: seq<NamespaceItem>)
    ensures |FunctionsOf(items)| + |StructsOf(items)| + |EnumsOf(items)| + |NamespacesOf(items)| == |items|
  {
    if items != [] {
      PartitionCounts(items[..|items| - 1]);
    }
  }

  /** An item is found in the list of its own kind. */
  lemma {:induction false} PartitionKeepsItem(items: seq<NamespaceItem>, k: nat)
    requires k < |items|
    ensures items[k].FunctionItem? ==> items[k].fun in FunctionsOf(items)
    ensures items[k].StructItem? ==> items[k].stru in StructsOf(items)
    ensures items[k].EnumItem? ==> items[k].enu in EnumsOf(items)
    ensures items[k].NamespaceItem? ==> items[k].ns in NamespacesOf(items)
  {
    if k < |items| - 1 {
      PartitionKeepsItem(items[..|items| - 1], k);
    }
  }

  /** Relative order is kept: the enums of a concatenation are those of the
      first part followed by those of the second. */
  lemma {:induction false} EnumsOfAppend(a: seq<NamespaceItem>, b: seq<NamespaceItem>)
    ensures EnumsOf(a + b) == EnumsOf(a) + EnumsOf(b)
    decreases |b|
  {
    if b == [] {
      assert a + b == a;
    } else {
      assert (a + b)[..|a + b| - 1] == a + b[..|b| - 1];
      EnumsOfAppend(a, b[..|b| - 1]);
    }
  }
}
