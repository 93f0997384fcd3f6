/** The syntax tree of the older generation (lavish/src/ast.rs), together with
    the `NamespaceBody` and `FunctionDecl.body` that its parser and IR rely on
    (the file itself declares only the three item lists of a namespace). */
module LavishAst {
  import opened Common
  import opened LavishSpan

  const LavishExt: string := ".lavish"
  const VendorDir: string := "lavish-vendor"

  datatype Identifier = Identifier(span: Span, text: string)

  datatype StringLiteral = StringLiteral(loc: Span, value: string)

  datatype FromDirective = FromDirective(path: StringLiteral)

  datatype Build = Build(name: Identifier, from: Option<FromDirective>)

  datatype Import = Import(name: Identifier, from: Option<FromDirective>)

  datatype Target = Rust | Go | TypeScript

  datatype Rules = Rules(loc: Span, target: Target, builds: seq<Build>)

  datatype Comment = Comment(lines: seq<string>)

  datatype BaseType = Bool | Int32 | Int64 | UInt32 | UInt64 | Float32 | Float64 | String | Bytes | Timestamp

  datatype TypeKind =
    | User
    | Base(base: BaseType)
    | Array(inner: Type)
    | Opt(inner: Type)
    | Map(keys: Type, values: Type)

  datatype Type = Type(span: Span, kind: TypeKind)

  datatype Field = Field(loc: Span, comment: Option<Comment>, name: Identifier, typ: Type)

  datatype FunctionModifier = Server | Client | Notification

  datatype FunctionDecl = FunctionDecl(
    loc: Span,
    comment: Option<Comment>,
    modifiers: set<FunctionModifier>,
    name: Identifier,
    params: seq<Field>,
    results: seq<Field>,
    body: Option<NamespaceBody>)

  datatype StructDecl = StructDecl(loc: Span, comment: Option<Comment>, name: Identifier, fields: seq<Field>)

  /** The items of a namespace or of a function body, sorted by kind. */
  datatype NamespaceBody = NamespaceBody(functions: seq<FunctionDecl>, structs: seq<StructDecl>, namespaces: seq<NamespaceDecl>)

  datatype NamespaceDecl = NamespaceDecl(
    loc: Span,
    comment: Option<Comment>,
    name: Identifier,
    functions: seq<FunctionDecl>,
    structs: seq<StructDecl>,
    namespaces: seq<NamespaceDecl>)

  datatype NamespaceItem =
    | FunctionItem(fun: FunctionDecl)
    | StructItem(stru: StructDecl)
    | NamespaceItem(ns: NamespaceDecl)

  /** A parsed schema.  lavish/src/ast.rs:102-107 declares a `root` of type
      `NamespaceDecl`, but the parser hands `Schema::new` a namespace body
      (lavish/src/parser/mod.rs:27-28) and codegen reads `schema.body`
      (lavish/src/codegen/rust/mod.rs:261); the model follows the code that
      builds and reads the field. */
  datatype Schema = Schema(loc: Span, imports: seq<Import>, body: NamespaceBody)

  /** A file-system path, as its list of components. */
  type Path = seq<string>

  datatype WorkspaceMember = WorkspaceMember(name: string, build: Option<Build>, imports: seq<Import>, schema: Option<Schema>)

  datatype Workspace = Workspace(dir: Path, rules: Rules, members: map<string, WorkspaceMember>)

  /** `Comment::default` */
  function DefaultComment(): (r: Comment)
    ensures |r.lines| == 0
  {
    Comment([])
  }

  /** `Type::text`: the source text the type was parsed from. */
  function TypeText(t: Type): (r: string)
    requires ValidSpan(t.span)
    ensures |r| == t.span.len
    ensures forall k :: 0 <= k < |r| ==> r[k] == t.span.source.input[t.span.offset + k]
  {
    Slice(t.span)
  }

  // The order-preserving selections of one kind of item.

  function FunctionsOf(items: seq<NamespaceItem>): seq<FunctionDecl>
  {
    if items == [] then []
    else FunctionsOf(items[..|items| - 1]) + (if items[|items| - 1].FunctionItem? then [items[|items| - 1].fun] else [])
  }

  function StructsOf(items: seq<NamespaceItem>): seq<StructDecl>
  {
    if items == [] then []
    else StructsOf(items[..|items| - 1]) + (if items[|items| - 1].StructItem? then [items[|items| - 1].stru] else [])
  }

  function NamespacesOf(items: seq<NamespaceItem>): seq<NamespaceDecl>
  {
    if items == [] then []
    else NamespacesOf(items[..|items| - 1]) + (if items[|items| - 1].NamespaceItem? then [items[|items| - 1].ns] else [])
  }

  function ItemCount(ns: NamespaceDecl): nat
  {
    |ns.functions| + |ns.structs| + |ns.namespaces|
  }

  /** `NamespaceDecl::add_item`: the item lands at the end of exactly the list
      of its kind; the other two lists and the header are untouched. */
  function AddItem(ns: NamespaceDecl, item: NamespaceItem): (r: NamespaceDecl)
    ensures r.name == ns.name && r.loc == ns.loc && r.comment == ns.comment
    ensures item.FunctionItem? ==> r.functions == ns.functions + [item.fun] && r.structs == ns.structs && r.namespaces == ns.namespaces
    ensures item.StructItem? ==> r.structs == ns.structs + [item.stru] && r.functions == ns.functions && r.namespaces == ns.namespaces
    ensures item.NamespaceItem? ==> r.namespaces == ns.namespaces + [item.ns] && r.functions == ns.functions && r.structs == ns.structs
    ensures ItemCount(r) == ItemCount(ns) + 1
  {
    match item
    case FunctionItem(f) => ns.(functions := ns.functions + [f])
    case StructItem(s) => ns.(structs := ns.structs + [s])
    case NamespaceItem(n) => ns.(namespaces := ns.namespaces + [n])
  }

  /** `NamespaceDecl::new`: starts from three empty lists and adds the items
      one at a time. */
  method NewNamespaceDecl(name: Identifier, loc: Span, comment: Option<Comment>, items: seq<NamespaceItem>) returns (ns: NamespaceDecl)
    ensures ns.name == name && ns.loc == loc && ns.comment == comment
    ensures ns.functions == FunctionsOf(items)
    ensures ns.structs == StructsOf(items)
    ensures ns.namespaces == NamespacesOf(items)
    ensures ItemCount(ns) == |items|
  {
    ns := NamespaceDecl(loc, comment, name, [], [], []);
    for i := 0 to |items|
      invariant ns.name == name && ns.loc == loc && ns.comment == comment
      invariant ns.functions == FunctionsOf(items[..i])
      invariant ns.structs == StructsOf(items[..i])
      invariant ns.namespaces == NamespacesOf(items[..i])
      invariant ItemCount(ns) == i
    {
      assert items[..i + 1][..i] == items[..i];
      ns := AddItem(ns, items[i]);
    }
    assert items[..|items|] == items;
  }

  /** Every item is kept, in exactly one of the three lists: the lists' sizes
      add up to the number of items. */
  lemma {:induction false} PartitionCounts(items: seq<NamespaceItem>)
    ensures |FunctionsOf(items)| + |StructsOf(items)| + |NamespacesOf(items)| == |items|
  {
    if items != [] {
      PartitionCounts(items[..|items| - 1]);
    }
  }

  /** An item is found in the list of its own kind. */
  lemma {:induction false} PartitionKeepsItem(items: seq<NamespaceItem>, k: nat)
    requires k < |items|
    ensures items[k].FunctionItem? ==> items[k].fun in FunctionsOf(items)
    ensures items[k].StructItem? ==> items[k].stru in StructsOf(items)
    ensures items[k].NamespaceItem? ==> items[k].ns in NamespacesOf(items)
  {
    if k < |items| - 1 {
      PartitionKeepsItem(items[..|items| - 1], k);
    }
  }

  /** Relative order is kept: items of one kind in a concatenation come out as
      the selection of the first part followed by that of the second. */
  lemma {:induction false} FunctionsOfAppend(a: seq<NamespaceItem>, b: seq<NamespaceItem>)
    ensures FunctionsOf(a + b) == FunctionsOf(a) + FunctionsOf(b)
    decreases |b|
  {
    if b == [] {
      assert a + b == a;
    } else {
      assert (a + b)[..|a + b| - 1] == a + b[..|b| - 1];
      FunctionsOfAppend(a, b[..|b| - 1]);
    }
  }

  /** `Workspace::resolve`, on the workspace directory: the schema next to
      the rules file wins, then the vendored copy; otherwise the error tells
      the user to fetch.  Whether a path exists is the file system's answer,
      passed in. */
  function Resolve(dir: Path, name: string, pathExists: Path -> bool): (r: Result<Path, string>)
    ensures var sourceName := name + LavishExt;
      var selfPath := dir + [sourceName];
      var vendorPath := dir + [VendorDir, sourceName];
      && (r == Ok(selfPath) <==> pathExists(selfPath))
      && (r == Ok(vendorPath) <==> !pathExists(selfPath) && pathExists(vendorPath))
      && (r.Err? <==> !pathExists(selfPath) && !pathExists(vendorPath))
      && (r.Err? ==> r.error == name + " not found. Try running `lavish fetch`")
  {
    var sourceName := name + LavishExt;
    var selfPath := dir + [sourceName];
    var vendorPath := dir + [VendorDir, sourceName];
    if pathExists(selfPath) then Ok(selfPath)
    else if pathExists(vendorPath) then Ok(vendorPath)
    else Err(name + " not found. Try running `lavish fetch`")
  }
}
