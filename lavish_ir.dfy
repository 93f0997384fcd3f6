/** The intermediate representation of lavish/src/codegen/rust/ir.rs, the
    older generation's IR over the tree of lavish/src/ast.rs: namespaces
    whose functions, structs and child namespaces are kept in insertion-
    ordered maps, functions that carry their dotted tokens and their body,
    the `Derive` line, and the protocol atoms.

    `Namespace::new` reads a child namespace's items through `decl.body`,
    which the `NamespaceDecl` of lavish/src/ast.rs does not have: it holds
    its functions, structs and namespaces itself.  The model reads those
    three lists as the child's body (`DeclBody`). */
module LavishIr {
  import opened Common
  import opened LavishAst
  import opened IndexMaps
  import opened IrNames
  import IrAtoms

  datatype Stru = Stru(decl: StructDecl, fullName: string)

  datatype Fun = Fun(decl: FunctionDecl, tokens: seq<string>, body: Option<Namespace>)

  datatype Namespace = Namespace(name: string, children: Entries<Namespace>, funs: Entries<Fun>, strus: Entries<Stru>)

  /** A namespace declaration's items, as a body. */
  function DeclBody(d: NamespaceDecl): (r: NamespaceBody)
    ensures r.functions == d.functions && r.structs == d.structs && r.namespaces == d.namespaces
  {
    NamespaceBody(d.functions, d.structs, d.namespaces)
  }

  // What `Namespace::new` and `Fun::new` build

  /** The pairs the function loop inserts, in declaration order. */
  function FunEntries(p: string, fs: seq<FunctionDecl>): (r: Entries<Fun>)
    ensures |r| == |fs|
    ensures forall k :: 0 <= k < |r| ==> r[k] == (fs[k].name.text, FunOf(p, fs[k]))
    decreases fs
  {
    seq(|fs|, k requires 0 <= k < |fs| => (fs[k].name.text, FunOf(p, fs[k])))
  }

  function StruEntries(p: string, ss: seq<StructDecl>): (r: Entries<Stru>)
    ensures |r| == |ss|
    ensures forall k :: 0 <= k < |r| ==> r[k] == (ss[k].name.text, Stru(ss[k], p + ss[k].name.text))
  {
    seq(|ss|, k requires 0 <= k < |ss| => (ss[k].name.text, Stru(ss[k], p + ss[k].name.text)))
  }

  function ChildEntries(p: string, ds: seq<NamespaceDecl>): (r: Entries<Namespace>)
    ensures |r| == |ds|
    ensures forall k :: 0 <= k < |r| ==> r[k] == (ds[k].name.text, NamespaceOfDecl(p, ds[k]))
    decreases ds
  {
    seq(|ds|, k requires 0 <= k < |ds| => (ds[k].name.text, NamespaceOfDecl(p, ds[k])))
  }

  /** `Namespace::new(prefix, name, body)` */
  function NamespaceOf(prefix: string, name: string, body: NamespaceBody): Namespace
    decreases body
  {
    var p := NsPrefix(prefix, name);
    Namespace(name, InsertAll(ChildEntries(p, body.namespaces)), InsertAll(FunEntries(p, body.functions)),
      InsertAll(StruEntries(p, body.structs)))
  }

  /** `Namespace::new` on a child declaration's own items. */
  function NamespaceOfDecl(prefix: string, d: NamespaceDecl): Namespace
    decreases d
  {
    var p := NsPrefix(prefix, d.name.text);
    Namespace(d.name.text, InsertAll(ChildEntries(p, d.namespaces)), InsertAll(FunEntries(p, d.functions)),
      InsertAll(StruEntries(p, d.structs)))
  }

  /** A child is built as its items, read as a body, would be. */
  lemma DeclAgrees(prefix: string, d: NamespaceDecl)
    ensures NamespaceOfDecl(prefix, d) == NamespaceOf(prefix, d.name.text, DeclBody(d))
  {
  }

  /** `Fun::new(prefix, decl)`: a body is a namespace named after the
      function, under the same prefix. */
  function FunOf(prefix: string, decl: FunctionDecl): Fun
    decreases decl
  {
    var name := decl.name.text;
    Fun(decl, Tokens(prefix + name), if decl.body.None? then None else Some(NamespaceOf(prefix, name, decl.body.value)))
  }

  // Sizes, for the termination of the building methods

  ghost function BodySize(b: NamespaceBody): nat
    decreases b
  {
    1 + FunsSize(b.functions) + DeclsSize(b.namespaces)
  }

  ghost function DeclsSize(ds: seq<NamespaceDecl>): nat
    decreases ds
  {
    if ds == [] then 0 else DeclsSize(ds[..|ds| - 1]) + DeclSize(ds[|ds| - 1])
  }

  ghost function DeclSize(d: NamespaceDecl): nat
    decreases d
  {
    1 + FunsSize(d.functions) + DeclsSize(d.namespaces)
  }

  ghost function FunsSize(fs: seq<FunctionDecl>): nat
    decreases fs
  {
    if fs == [] then 0 else FunsSize(fs[..|fs| - 1]) + FunSize(fs[|fs| - 1])
  }

  ghost function FunSize(f: FunctionDecl): nat
    decreases f
  {
    1 + if f.body.None? then 0 else BodySize(f.body.value)
  }

  lemma {:induction false} FunsSizeAt(fs: seq<FunctionDecl>, i: nat)
    requires i < |fs|
    ensures FunSize(fs[i]) <= FunsSize(fs)
  {
    if i < |fs| - 1 {
      FunsSizeAt(fs[..|fs| - 1], i);
    }
  }

  lemma {:induction false} DeclsSizeAt(ds: seq<NamespaceDecl>, i: nat)
    requires i < |ds|
    ensures DeclSize(ds[i]) <= DeclsSize(ds)
  {
    if i < |ds| - 1 {
      DeclsSizeAt(ds[..|ds| - 1], i);
    }
  }

  /** `Namespace::new`: the prefix, then three loops filling the maps. */
  method BuildNamespace(prefix: string, name: string, body: NamespaceBody) returns (r: Namespace)
    ensures r == NamespaceOf(prefix, name, body)
    decreases BodySize(body), 0
  {
    var p: string;
    if name == RootName {
      p := "";
    } else {
      p := prefix + name + ".";
    }
    var funs := FillFuns(p, body.functions);
    var strus := FillStrus(p, body.structs);
    var children := FillChildren(p, body.namespaces);
    r := Namespace(name, children, funs, strus);
  }

  /** The loop over the functions. */
  method FillFuns(p: string, fs: seq<FunctionDecl>) returns (funs: Entries<Fun>)
    ensures funs == InsertAll(FunEntries(p, fs))
    decreases FunsSize(fs), 1
  {
    funs := [];
    ghost var fe := FunEntries(p, fs);
    for i := 0 to |fs|
      invariant funs == InsertAll(fe[..i])
    {
      var decl := fs[i];
      FunsSizeAt(fs, i);
      var f := BuildFun(p, decl);
      InsertAllStep(fe, i);
      funs := Insert(funs, decl.name.text, f);
    }
    assert fe[..|fe|] == fe;
  }

  /** The loop over the structs. */
  method FillStrus(p: string, ss: seq<StructDecl>) returns (strus: Entries<Stru>)
    ensures strus == InsertAll(StruEntries(p, ss))
  {
    strus := [];
    ghost var se := StruEntries(p, ss);
    for i := 0 to |ss|
      invariant strus == InsertAll(se[..i])
    {
      var decl := ss[i];
      var fullName := p + decl.name.text;
      InsertAllStep(se, i);
      strus := Insert(strus, decl.name.text, Stru(decl, fullName));
    }
    assert se[..|se|] == se;
  }

  /** The loop over the child namespaces. */
  method FillChildren(p: string, ds: seq<NamespaceDecl>) returns (children: Entries<Namespace>)
    ensures children == InsertAll(ChildEntries(p, ds))
    decreases DeclsSize(ds), 1
  {
    children := [];
    ghost var ce := ChildEntries(p, ds);
    for i := 0 to |ds|
      invariant children == InsertAll(ce[..i])
    {
      var decl := ds[i];
      DeclsSizeAt(ds, i);
      var child := BuildNamespace(p, decl.name.text, DeclBody(decl));
      DeclAgrees(p, decl);
      InsertAllStep(ce, i);
      children := Insert(children, decl.name.text, child);
    }
    assert ce[..|ce|] == ce;
  }

  /** `Fun::new` */
  method BuildFun(prefix: string, decl: FunctionDecl) returns (f: Fun)
    ensures f == FunOf(prefix, decl)
    decreases FunSize(decl), 0
  {
    var name := decl.name.text;
    var tokens := Tokens(prefix + name);
    if decl.body.None? {
      f := Fun(decl, tokens, None);
    } else {
      var b := BuildNamespace(prefix, name, decl.body.value);
      f := Fun(decl, tokens, Some(b));
    }
  }

  /** Declaring a name twice in one namespace keeps one entry, at the place
      of the first declaration, holding the last: the maps have distinct
      keys, in order of first appearance. */
  lemma NamespaceMaps(prefix: string, name: string, body: NamespaceBody)
    ensures var ns := NamespaceOf(prefix, name, body); var p := NsPrefix(prefix, name);
      && DistinctKeys(ns.funs) && DistinctKeys(ns.children) && DistinctKeys(ns.strus)
      && (forall k :: Get(ns.funs, k) == LastWith(FunEntries(p, body.functions), k))
      && (forall k :: Get(ns.children, k) == LastWith(ChildEntries(p, body.namespaces), k))
      && Keys(ns.funs) == FirstSeen(Keys(FunEntries(p, body.functions)))
      && Keys(ns.children) == FirstSeen(Keys(ChildEntries(p, body.namespaces)))
  {
    var p := NsPrefix(prefix, name);
    InsertAllSpec(FunEntries(p, body.functions));
    InsertAllSpec(ChildEntries(p, body.namespaces));
    InsertAllSpec(StruEntries(p, body.structs));
  }

  // `funs`

  /** `Namespace::funs`: the children's functions, then each local
      function followed by its body's. */
  function NsFuns(ns: Namespace): seq<Fun>
    decreases ns, 1
  {
    ChildFuns(ns, |ns.children|) + LocalFuns(ns, |ns.funs|)
  }

  function ChildFuns(ns: Namespace, n: nat): seq<Fun>
    requires n <= |ns.children|
    decreases ns, 0, n
  {
    if n == 0 then [] else ChildFuns(ns, n - 1) + NsFuns(ns.children[n - 1].1)
  }

  function LocalFuns(ns: Namespace, n: nat): seq<Fun>
    requires n <= |ns.funs|
    decreases ns, 0, n
  {
    if n == 0 then [] else LocalFuns(ns, n - 1) + FunFuns(ns.funs[n - 1].1)
  }

  /** `Fun::funs`: the function, then its body's functions. */
  function FunFuns(f: Fun): (r: seq<Fun>)
    ensures |r| >= 1 && r[0] == f
    decreases f, 2
  {
    [f] + if f.body.None? then [] else NsFuns(f.body.value)
  }

  lemma {:induction false} InChildFuns(ns: Namespace, n: nat, f: Fun)
    requires n <= |ns.children| && f in ChildFuns(ns, n)
    ensures exists k :: 0 <= k < n && f in NsFuns(ns.children[k].1)
  {
    if f !in NsFuns(ns.children[n - 1].1) {
      InChildFuns(ns, n - 1, f);
    }
  }

  lemma {:induction false} InLocalFuns(ns: Namespace, n: nat, f: Fun)
    requires n <= |ns.funs| && f in LocalFuns(ns, n)
    ensures exists k :: 0 <= k < n && f in FunFuns(ns.funs[k].1)
  {
    if f !in FunFuns(ns.funs[n - 1].1) {
      InLocalFuns(ns, n - 1, f);
    }
  }

  /** No function or namespace below the root is named like the root. */
  ghost predicate PlainFuns(fs: seq<FunctionDecl>)
    decreases fs
  {
    forall k :: 0 <= k < |fs| ==> PlainFun(fs[k])
  }

  ghost predicate PlainDecls(ds: seq<NamespaceDecl>)
    decreases ds
  {
    forall k :: 0 <= k < |ds| ==> PlainDecl(ds[k])
  }

  ghost predicate PlainBody(b: NamespaceBody)
  {
    PlainFuns(b.functions) && PlainDecls(b.namespaces)
  }

  ghost predicate PlainDecl(d: NamespaceDecl)
    decreases d
  {
    d.name.text != RootName && PlainFuns(d.functions) && PlainDecls(d.namespaces)
  }

  ghost predicate PlainFun(decl: FunctionDecl)
    decreases decl
  {
    decl.name.text != RootName && (decl.body.Some? ==> PlainFuns(decl.body.value.functions) && PlainDecls(decl.body.value.namespaces))
  }

  /** Where a child namespace of the map came from. */
  lemma ChildOrigin(p: string, ds: seq<NamespaceDecl>, k: nat) returns (j: nat)
    requires k < |InsertAll(ChildEntries(p, ds))|
    ensures j < |ds|
    ensures InsertAll(ChildEntries(p, ds))[k].1 == NamespaceOfDecl(p, ds[j])
  {
    var ce := ChildEntries(p, ds);
    InsertAllValues(ce);
    assert InsertAll(ce)[k] in ce;
    j :| 0 <= j < |ce| && ce[j] == InsertAll(ce)[k];
  }

  /** Where a function of the map came from. */
  lemma FunOrigin(p: string, fs: seq<FunctionDecl>, k: nat) returns (j: nat)
    requires k < |InsertAll(FunEntries(p, fs))|
    ensures j < |fs|
    ensures InsertAll(FunEntries(p, fs))[k].1 == FunOf(p, fs[j])
  {
    var fe := FunEntries(p, fs);
    InsertAllValues(fe);
    assert InsertAll(fe)[k] in fe;
    j :| 0 <= j < |fe| && fe[j] == InsertAll(fe)[k];
  }

  /** Every function of a namespace, however deep, has an rpc name that
      extends the namespace's prefix: bodies and child namespaces extend
      their parent's path. */
  lemma {:induction false} NsFunPrefixed(prefix: string, name: string, body: NamespaceBody, f: Fun)
    requires PlainBody(body) && f in NsFuns(NamespaceOf(prefix, name, body))
    ensures StartsWith(RpcName(f.tokens), NsPrefix(prefix, name))
    decreases BodySize(body), 1
  {
    var ns := NamespaceOf(prefix, name, body);
    var p := NsPrefix(prefix, name);
    assert f in ChildFuns(ns, |ns.children|) || f in LocalFuns(ns, |ns.funs|);
    if f in ChildFuns(ns, |ns.children|) {
      InChildFuns(ns, |ns.children|, f);
      var k :| 0 <= k < |ns.children| && f in NsFuns(ns.children[k].1);
      var j := ChildOrigin(p, body.namespaces, k);
      var decl := body.namespaces[j];
      assert PlainDecl(decl);
      DeclsSizeAt(body.namespaces, j);
      NsFunPrefixed(p, decl.name.text, DeclBody(decl), f);
      ChildPrefix(RpcName(f.tokens), p, decl.name.text);
    } else {
      InLocalFuns(ns, |ns.funs|, f);
      var k :| 0 <= k < |ns.funs| && f in FunFuns(ns.funs[k].1);
      var j := FunOrigin(p, body.functions, k);
      assert PlainFun(body.functions[j]);
      FunsSizeAt(body.functions, j);
      FunFunPrefixed(p, body.functions[j], f);
    }
  }

  lemma {:induction false} FunFunPrefixed(prefix: string, decl: FunctionDecl, f: Fun)
    requires PlainFun(decl) && f in FunFuns(FunOf(prefix, decl))
    ensures StartsWith(RpcName(f.tokens), prefix)
    decreases FunSize(decl), 0
  {
    var name := decl.name.text;
    var g := FunOf(prefix, decl);
    if f == g {
      RpcNameIsFullName(prefix + name);
      assert (prefix + name)[..|prefix|] == prefix;
    } else {
      assert f in NsFuns(g.body.value);
      NsFunPrefixed(prefix, name, decl.body.value, f);
      ChildPrefix(RpcName(f.tokens), prefix, name);
    }
  }

  /** The rpc names of all functions under a namespace extend its prefix. */
  lemma NsFunsPrefixed(prefix: string, name: string, body: NamespaceBody)
    requires PlainBody(body)
    ensures forall f :: f in NsFuns(NamespaceOf(prefix, name, body)) ==> StartsWith(RpcName(f.tokens), NsPrefix(prefix, name))
  {
    forall f | f in NsFuns(NamespaceOf(prefix, name, body)) {
      NsFunPrefixed(prefix, name, body, f);
    }
  }

  // Kinds, atoms and the protocol

  /** `Fun::kind`: a notification exactly when the declaration carries the
      notification modifier. */
  function KindOf(f: Fun): (r: IrAtoms.FunKind)
    ensures r == IrAtoms.Notification <==> Notification in f.decl.modifiers
  {
    if Notification in f.decl.modifiers then IrAtoms.Notification else IrAtoms.Request
  }

  function AtomFuns(fs: seq<Fun>): (r: seq<IrAtoms.AtomFun>)
    ensures |r| == |fs| && forall k :: 0 <= k < |fs| ==> r[k] == IrAtoms.AtomFun(KindOf(fs[k]), fs[k].tokens)
  {
    if fs == [] then [] else AtomFuns(fs[..|fs| - 1]) + [IrAtoms.AtomFun(KindOf(fs[|fs| - 1]), fs[|fs| - 1].tokens)]
  }

  /** This generation's `Derive`: the serde traits are named through
      `lavish_rpc`. */
  datatype Derive = Derive(items: seq<string>)

  function DeriveDebug(d: Derive): (r: Derive)
    ensures r.items == d.items + ["Debug"]
  {
    Derive(d.items + ["Debug"])
  }

  function DeriveSerialize(d: Derive): (r: Derive)
    ensures r.items == d.items + ["lavish_rpc::serde_derive::Serialize"]
  {
    Derive(d.items + ["lavish_rpc::serde_derive::Serialize"])
  }

  function DeriveDeserialize(d: Derive): (r: Derive)
    ensures r.items == d.items + ["lavish_rpc::serde_derive::Deserialize"]
  {
    Derive(d.items + ["lavish_rpc::serde_derive::Deserialize"])
  }

  function DeriveText(d: Derive): string
  {
    "#[derive(" + Join(d.items, ", ") + ")]\n"
  }

  const SerializePath: string := "lavish_rpc::serde_derive::Serialize"

  /** `derive().debug().serialize()`: the items in push order. */
  lemma DeriveOrder()
    ensures DeriveText(DeriveSerialize(DeriveDebug(Derive([])))) == "#[derive(Debug, " + SerializePath + ")]\n"
  {
    var items := ["Debug", SerializePath];
    assert DeriveSerialize(DeriveDebug(Derive([]))).items == items;
    assert items[1..] == [SerializePath];
  }

  const DeriveLine: string := DeriveText(DeriveSerialize(DeriveDebug(Derive([]))))

  /** `Display for Protocol`. */
  function ProtocolText(fs: seq<Fun>, depth: nat): string
  {
    IrAtoms.ProtocolText(DeriveLine, depth, AtomFuns(fs))
  }

  /** A function's atom kind follows its modifiers: the notification atom
      holds exactly the notifications, the request atoms the rest. */
  lemma AtomKinds(fs: seq<Fun>, f: Fun)
    requires f in fs
    ensures IrAtoms.AtomFun(KindOf(f), f.tokens) in IrAtoms.OfKind(IrAtoms.Notification, AtomFuns(fs)) <==> Notification in f.decl.modifiers
    ensures IrAtoms.AtomFun(KindOf(f), f.tokens) in IrAtoms.OfKind(IrAtoms.Request, AtomFuns(fs)) <==> Notification !in f.decl.modifiers
  {
    var k :| 0 <= k < |fs| && fs[k] == f;
    assert AtomFuns(fs)[k] == IrAtoms.AtomFun(KindOf(f), f.tokens);
  }
}
