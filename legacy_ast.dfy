/** The first syntax tree of the newer crate (src/ast.rs), built by the
    string-slice parser of src/parser.rs.  Locations are the parsed slices
    themselves; names and types are plain strings. */
module LegacyAst {
  import opened Common

  datatype Loc = Loc(slice: string)

  datatype Comment = Comment(lines: seq<string>)

  datatype FunctionModifier = Server | Client

  datatype Field = Field(loc: Loc, comment: Option<Comment>, name: string, typ: string)

  datatype FunctionDecl = FunctionDecl(
    loc: Loc,
    comment: Option<Comment>,
    modifiers: seq<FunctionModifier>,
    name: string,
    params: seq<Field>,
    results: seq<Field>)

  datatype StructDecl = StructDecl(loc: Loc, comment: Option<Comment>, name: string, fields: seq<Field>)

  datatype NamespaceDecl = NamespaceDecl(
    loc: Loc,
    comment: Option<Comment>,
    name: string,
    functions: seq<FunctionDecl>,
    structs: seq<StructDecl>,
    namespaces: seq<NamespaceDecl>)

  datatype NamespaceItem =
    | FunctionItem(fun: FunctionDecl)
    | StructItem(stru: StructDecl)
    | NamespaceItem(ns: NamespaceDecl)

  datatype Module = Module(namespaces: seq<NamespaceDecl>)

  /** `Module::new`: the namespaces are kept as given, in order. */
  function NewModule(namespaces: seq<NamespaceDecl>): (r: Module)
    ensures |r.namespaces| == |namespaces|
    ensures forall k :: 0 <= k < |namespaces| ==> r.namespaces[k] == namespaces[k]
  {
    Module(namespaces)
  }

  /** `Comment::default` */
  function DefaultComment(): (r: Comment)
    ensures |r.lines| == 0
  {
    Comment([])
  }

  function FunctionsOf(items: seq<NamespaceItem>): seq<FunctionDecl>
  {
    if items == [] then []
    else FunctionsOf(items[..|items| - 1]) + (if items[|items| - 1].FunctionItem? then [items[|items| - 1].fun] else [])
  }

  function StructsOf(items: seq<NamespaceItem>): seq<StructDecl>
  {
    if items == [] then []
    else StructsOf(items[..|items| - 1]) + (if items[|items| - 1].StructItem? then [items[|items| - 1].stru] else [])
  }

  function NamespacesOf(items: seq<NamespaceItem>): seq<NamespaceDecl>
  {
    if items == [] then []
    else NamespacesOf(items[..|items| - 1]) + (if items[|items| - 1].NamespaceItem? then [items[|items| - 1].ns] else [])
  }

  /** `NamespaceDecl::add_item`: a push onto the list of the item's kind. */
  function AddItem(ns: NamespaceDecl, item: NamespaceItem): (r: NamespaceDecl)
    ensures r.name == ns.name && r.loc == ns.loc && r.comment == ns.comment
    ensures |r.functions| + |r.structs| + |r.namespaces| == |ns.functions| + |ns.structs| + |ns.namespaces| + 1
    ensures item.FunctionItem? ==> r.functions == ns.functions + [item.fun] && r.structs == ns.structs && r.namespaces == ns.namespaces
    ensures item.StructItem? ==> r.structs == ns.structs + [item.stru] && r.functions == ns.functions && r.namespaces == ns.namespaces
    ensures item.NamespaceItem? ==> r.namespaces == ns.namespaces + [item.ns] && r.functions == ns.functions && r.structs == ns.structs
  {
    if item.FunctionItem? then ns.(functions := ns.functions + [item.fun])
    else if item.StructItem? then ns.(structs := ns.structs + [item.stru])
    else ns.(namespaces := ns.namespaces + [item.ns])
  }

  /** `NamespaceDecl::new`: the name is copied, location and comment kept,
      and each item is added in turn. */
  method NewNamespaceDecl(name: string, loc: Loc, comment: Option<Comment>, items: seq<NamespaceItem>) returns (ns: NamespaceDecl)
    ensures ns.name == name && ns.loc == loc && ns.comment == comment
    ensures ns.functions == FunctionsOf(items)
    ensures ns.structs == StructsOf(items)
    ensures ns.namespaces == NamespacesOf(items)
    ensures |ns.functions| + |ns.structs| + |ns.namespaces| == |items|
  {
    ns := NamespaceDecl(loc, comment, name, [], [], []);
    for i := 0 to |items|
      invariant ns.name == name && ns.loc == loc && ns.comment == comment
      invariant ns.functions == FunctionsOf(items[..i])
      invariant ns.structs == StructsOf(items[..i])
      invariant ns.namespaces == NamespacesOf(items[..i])
      invariant |ns.functions| + |ns.structs| + |ns.namespaces| == i
    {
      assert items[..i + 1][..i] == items[..i];
      ns := AddItem(ns, items[i]);
    }
    assert items[..|items|] == items;
  }

  /** An item is found in the list of its own kind. */
  lemma {:induction false} PartitionKeepsItem(items: seq<NamespaceItem>, k: nat)
    requires k < |items|
    ensures items[k].FunctionItem? ==> items[k].fun in FunctionsOf(items)
    ensures items[k].StructItem? ==> items[k].stru in StructsOf(items)
    ensures items[k].NamespaceItem? ==> items[k].ns in NamespacesOf(items)
  {
    if k < |items| - 1 {
      PartitionKeepsItem(items[..|items| - 1], k);
    }
  }

  /** Relative order is kept: the structs of a concatenation are those of
      the first part followed by those of the second. */
  lemma {:induction false} StructsOfAppend(a: seq<NamespaceItem>, b: seq<NamespaceItem>)
    ensures StructsOf(a + b) == StructsOf(a) + StructsOf(b)
    decreases |b|
  {
    if b == [] {
      assert a + b == a;
    } else {
      assert (a + b)[..|a + b| - 1] == a + b[..|b| - 1];
      StructsOfAppend(a, b[..|b| - 1]);
    }
  }

  /** Relative order is kept for functions too. */
  lemma {:induction false} FunctionsOfAppend(a: seq<NamespaceItem>, b: seq<NamespaceItem>)
    ensures FunctionsOf(a + b) == FunctionsOf(a) + FunctionsOf(b)
    decreases |b|
  {
    if b == [] {
      assert a + b == a;
    } else {
      assert (a + b)[..|a + b| - 1] == a + b[..|b| - 1];
      FunctionsOfAppend(a, b[..|b| - 1]);
    }
  }

  /** And for namespaces. */
  lemma {:induction false} NamespacesOfAppend(a: seq<NamespaceItem>, b: seq<NamespaceItem>)
    ensures NamespacesOf(a + b) == NamespacesOf(a) + NamespacesOf(b)
    decreases |b|
  {
    if b == [] {
      assert a + b == a;
    } else {
      assert (a + b)[..|a + b| - 1] == a + b[..|b| - 1];
      NamespacesOfAppend(a, b[..|b| - 1]);
    }
  }
}
