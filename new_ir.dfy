/** The intermediate representation of src/codegen/rust/ir.rs: namespaces
    whose functions, structs and child namespaces are kept in insertion-
    ordered maps keyed by name, functions that carry their dotted tokens and
    their body, the protocol atoms over them, and the `Client` module
    emitter.  Naming rules are `IrNames`, the atoms `IrAtoms`. */
module NewIr {
  import opened Common
  import opened NewAst
  import opened IndexMaps
  import opened IrNames
  import IrAtoms
  import opened LavishOutput
  import opened Layout
  import RustPaths
  import opened RustLang

  datatype Stru = Stru(decl: StructDecl, fullName: string)

  datatype Fun = Fun(decl: FunctionDecl, tokens: seq<string>, body: Option<Namespace>)

  datatype Namespace = Namespace(name: string, children: Entries<Namespace>, funs: Entries<Fun>, strus: Entries<Stru>)

  // What `Namespace::new` and `Fun::new` build

  /** The pairs the function loop inserts, in declaration order. */
  function FunEntries(p: string, body: NamespaceBody): (r: Entries<Fun>)
    ensures |r| == |body.functions|
    ensures forall k :: 0 <= k < |r| ==> r[k] == (body.functions[k].name.text, FunOf(p, body.functions[k]))
    decreases body, 0
  {
    seq(|body.functions|, k requires 0 <= k < |body.functions| => (body.functions[k].name.text, FunOf(p, body.functions[k])))
  }

  function StruEntries(p: string, body: NamespaceBody): (r: Entries<Stru>)
    ensures |r| == |body.structs|
    ensures forall k :: 0 <= k < |r| ==> r[k] == (body.structs[k].name.text, Stru(body.structs[k], p + body.structs[k].name.text))
  {
    seq(|body.structs|, k requires 0 <= k < |body.structs| => (body.structs[k].name.text, Stru(body.structs[k], p + body.structs[k].name.text)))
  }

  function ChildEntries(p: string, body: NamespaceBody): (r: Entries<Namespace>)
    ensures |r| == |body.namespaces|
    ensures forall k :: 0 <= k < |r| ==> r[k] == (body.namespaces[k].name.text, NamespaceOf(p, body.namespaces[k].name.text, body.namespaces[k].body))
    decreases body, 0
  {
    seq(|body.namespaces|, k requires 0 <= k < |body.namespaces| =>
      (body.namespaces[k].name.text, NamespaceOf(p, body.namespaces[k].name.text, body.namespaces[k].body)))
  }

  /** `Namespace::new(prefix, name, body)` */
  function NamespaceOf(prefix: string, name: string, body: NamespaceBody): Namespace
    decreases body, 1
  {
    var p := NsPrefix(prefix, name);
    Namespace(name, InsertAll(ChildEntries(p, body)), InsertAll(FunEntries(p, body)), InsertAll(StruEntries(p, body)))
  }

  /** `Fun::new(prefix, decl)`: a body is a namespace named after the
      function, under the same prefix. */
  function FunOf(prefix: string, decl: FunctionDecl): Fun
    decreases decl
  {
    var name := decl.name.text;
    Fun(decl, Tokens(prefix + name), if decl.body.None? then None else Some(NamespaceOf(prefix, name, decl.body.value)))
  }

  /** `Namespace::new`: the prefix, then three loops filling the maps. */
  method BuildNamespace(prefix: string, name: string, body: NamespaceBody) returns (r: Namespace)
    ensures r == NamespaceOf(prefix, name, body)
    decreases body, 1
  {
    var p: string;
    if name == RootName {
      p := "";
    } else {
      p := prefix + name + ".";
    }
    var funs := FillFuns(p, body);
    var strus := FillStrus(p, body);
    var children := FillChildren(p, body);
    r := Namespace(name, children, funs, strus);
  }

  /** The loop over the body's functions. */
  method FillFuns(p: string, body: NamespaceBody) returns (funs: Entries<Fun>)
    ensures funs == InsertAll(FunEntries(p, body))
    decreases body, 0
  {
    funs := [];
    ghost var fe := FunEntries(p, body);
    for i := 0 to |body.functions|
      invariant funs == InsertAll(fe[..i])
    {
      var decl := body.functions[i];
      var f := BuildFun(p, decl);
      InsertAllStep(fe, i);
      funs := Insert(funs, decl.name.text, f);
    }
    assert fe[..|fe|] == fe;
  }

  /** The loop over the body's structs. */
  method FillStrus(p: string, body: NamespaceBody) returns (strus: Entries<Stru>)
    ensures strus == InsertAll(StruEntries(p, body))
  {
    strus := [];
    ghost var se := StruEntries(p, body);
    for i := 0 to |body.structs|
      invariant strus == InsertAll(se[..i])
    {
      var decl := body.structs[i];
      var fullName := p + decl.name.text;
      InsertAllStep(se, i);
      strus := Insert(strus, decl.name.text, Stru(decl, fullName));
    }
    assert se[..|se|] == se;
  }

  /** The loop over the child namespaces. */
  method FillChildren(p: string, body: NamespaceBody) returns (children: Entries<Namespace>)
    ensures children == InsertAll(ChildEntries(p, body))
    decreases body, 0
  {
    children := [];
    ghost var ce := ChildEntries(p, body);
    for i := 0 to |body.namespaces|
      invariant children == InsertAll(ce[..i])
    {
      var decl := body.namespaces[i];
      var child := BuildNamespace(p, decl.name.text, decl.body);
      InsertAllStep(ce, i);
      children := Insert(children, decl.name.text, child);
    }
    assert ce[..|ce|] == ce;
  }

  /** `Fun::new` */
  method BuildFun(prefix: string, decl: FunctionDecl) returns (f: Fun)
    ensures f == FunOf(prefix, decl)
    decreases decl
  {
    var name := decl.name.text;
    var tokens := Tokens(prefix + name);
    if decl.body.None? {
      f := Fun(decl, tokens, None);
    } else {
      var b := BuildNamespace(prefix, name, decl.body.value);
      f := Fun(decl, tokens, Some(b));
    }
  }

  /** Declaring a name twice in one namespace keeps one entry, at the place
      of the first declaration, holding the last: the maps have distinct
      keys, in order of first appearance. */
  lemma NamespaceMaps(prefix: string, name: string, body: NamespaceBody)
    ensures var ns := NamespaceOf(prefix, name, body); var p := NsPrefix(prefix, name);
      && DistinctKeys(ns.funs) && DistinctKeys(ns.children) && DistinctKeys(ns.strus)
      && (forall k :: Get(ns.funs, k) == LastWith(FunEntries(p, body), k))
      && (forall k :: Get(ns.children, k) == LastWith(ChildEntries(p, body), k))
      && Keys(ns.funs) == FirstSeen(Keys(FunEntries(p, body)))
      && Keys(ns.children) == FirstSeen(Keys(ChildEntries(p, body)))
  {
    var p := NsPrefix(prefix, name);
    InsertAllSpec(FunEntries(p, body));
    InsertAllSpec(ChildEntries(p, body));
    InsertAllSpec(StruEntries(p, body));
  }

  // `funs`

  /** `Namespace::funs`: the children's functions, then each local
      function followed by its body's. */
  function NsFuns(ns: Namespace): seq<Fun>
    decreases ns, 1
  {
    ChildFuns(ns, |ns.children|) + LocalFuns(ns, |ns.funs|)
  }

  function ChildFuns(ns: Namespace, n: nat): seq<Fun>
    requires n <= |ns.children|
    decreases ns, 0, n
  {
    if n == 0 then [] else ChildFuns(ns, n - 1) + NsFuns(ns.children[n - 1].1)
  }

  function LocalFuns(ns: Namespace, n: nat): seq<Fun>
    requires n <= |ns.funs|
    decreases ns, 0, n
  {
    if n == 0 then [] else LocalFuns(ns, n - 1) + FunFuns(ns.funs[n - 1].1)
  }

  /** `Fun::funs`: the function, then its body's functions. */
  function FunFuns(f: Fun): (r: seq<Fun>)
    ensures |r| >= 1 && r[0] == f
    decreases f, 2
  {
    [f] + if f.body.None? then [] else NsFuns(f.body.value)
  }

  lemma {:induction false} InChildFuns(ns: Namespace, n: nat, f: Fun)
    requires n <= |ns.children| && f in ChildFuns(ns, n)
    ensures exists k :: 0 <= k < n && f in NsFuns(ns.children[k].1)
  {
    if f !in NsFuns(ns.children[n - 1].1) {
      InChildFuns(ns, n - 1, f);
    }
  }

  lemma {:induction false} InLocalFuns(ns: Namespace, n: nat, f: Fun)
    requires n <= |ns.funs| && f in LocalFuns(ns, n)
    ensures exists k :: 0 <= k < n && f in FunFuns(ns.funs[k].1)
  {
    if f !in FunFuns(ns.funs[n - 1].1) {
      InLocalFuns(ns, n - 1, f);
    }
  }

  /** No function or namespace below the root is named like the root
      (identifiers cannot be, but the tree does not say so). */
  ghost predicate PlainBody(body: NamespaceBody)
    decreases body
  {
    && (forall k :: 0 <= k < |body.functions| ==> PlainFun(body.functions[k]))
    && (forall k :: 0 <= k < |body.namespaces| ==>
          body.namespaces[k].name.text != RootName && PlainBody(body.namespaces[k].body))
  }

  ghost predicate PlainFun(decl: FunctionDecl)
    decreases decl
  {
    decl.name.text != RootName && (decl.body.Some? ==> PlainBody(decl.body.value))
  }

  /** Where a child namespace of the map came from. */
  lemma ChildOrigin(p: string, body: NamespaceBody, k: nat) returns (j: nat)
    requires k < |InsertAll(ChildEntries(p, body))|
    ensures j < |body.namespaces|
    ensures InsertAll(ChildEntries(p, body))[k].1 == NamespaceOf(p, body.namespaces[j].name.text, body.namespaces[j].body)
  {
    var ce := ChildEntries(p, body);
    InsertAllValues(ce);
    assert InsertAll(ce)[k] in ce;
    j :| 0 <= j < |ce| && ce[j] == InsertAll(ce)[k];
  }

  /** Where a function of the map came from. */
  lemma FunOrigin(p: string, body: NamespaceBody, k: nat) returns (j: nat)
    requires k < |InsertAll(FunEntries(p, body))|
    ensures j < |body.functions|
    ensures InsertAll(FunEntries(p, body))[k].1 == FunOf(p, body.functions[j])
  {
    var fe := FunEntries(p, body);
    InsertAllValues(fe);
    assert InsertAll(fe)[k] in fe;
    j :| 0 <= j < |fe| && fe[j] == InsertAll(fe)[k];
  }

  /** Every function of a namespace, however deep, has an rpc name that
      extends the namespace's prefix: bodies and child namespaces extend
      their parent's path. */
  lemma {:induction false} NsFunPrefixed(prefix: string, name: string, body: NamespaceBody, f: Fun)
    requires PlainBody(body) && f in NsFuns(NamespaceOf(prefix, name, body))
    ensures StartsWith(RpcName(f.tokens), NsPrefix(prefix, name))
    decreases body, 1
  {
    var ns := NamespaceOf(prefix, name, body);
    var p := NsPrefix(prefix, name);
    assert f in ChildFuns(ns, |ns.children|) || f in LocalFuns(ns, |ns.funs|);
    if f in ChildFuns(ns, |ns.children|) {
      InChildFuns(ns, |ns.children|, f);
      var k :| 0 <= k < |ns.children| && f in NsFuns(ns.children[k].1);
      var j := ChildOrigin(p, body, k);
      var decl := body.namespaces[j];
      assert decl.name.text != RootName && PlainBody(decl.body);
      NsFunPrefixed(p, decl.name.text, decl.body, f);
      ChildPrefix(RpcName(f.tokens), p, decl.name.text);
    } else {
      InLocalFuns(ns, |ns.funs|, f);
      var k :| 0 <= k < |ns.funs| && f in FunFuns(ns.funs[k].1);
      var j := FunOrigin(p, body, k);
      assert PlainFun(body.functions[j]);
      FunFunPrefixed(p, body.functions[j], f);
    }
  }

  lemma {:induction false} FunFunPrefixed(prefix: string, decl: FunctionDecl, f: Fun)
    requires PlainFun(decl) && f in FunFuns(FunOf(prefix, decl))
    ensures StartsWith(RpcName(f.tokens), prefix)
    decreases decl
  {
    var name := decl.name.text;
    var g := FunOf(prefix, decl);
    if f == g {
      RpcNameIsFullName(prefix + name);
      assert (prefix + name)[..|prefix|] == prefix;
    } else {
      assert f in NsFuns(g.body.value);
      NsFunPrefixed(prefix, name, decl.body.value, f);
      ChildPrefix(RpcName(f.tokens), prefix, name);
    }
  }

  /** The rpc names of all functions under a namespace extend its prefix. */
  lemma NsFunsPrefixed(prefix: string, name: string, body: NamespaceBody)
    requires PlainBody(body)
    ensures forall f :: f in NsFuns(NamespaceOf(prefix, name, body)) ==> StartsWith(RpcName(f.tokens), NsPrefix(prefix, name))
  {
    forall f | f in NsFuns(NamespaceOf(prefix, name, body)) {
      NsFunPrefixed(prefix, name, body, f);
    }
  }

  // Atoms and the protocol

  /** `Fun::kind`, read straight from the declaration. */
  function KindOf(f: Fun): (r: IrAtoms.FunKind)
    ensures r == IrAtoms.Notification <==> f.decl.kind == Notification
  {
    match f.decl.kind
    case Request => IrAtoms.Request
    case Notification => IrAtoms.Notification
  }

  function AtomFuns(fs: seq<Fun>): (r: seq<IrAtoms.AtomFun>)
    ensures |r| == |fs| && forall k :: 0 <= k < |fs| ==> r[k] == IrAtoms.AtomFun(KindOf(fs[k]), fs[k].tokens)
  {
    if fs == [] then [] else AtomFuns(fs[..|fs| - 1]) + [IrAtoms.AtomFun(KindOf(fs[|fs| - 1]), fs[|fs| - 1].tokens)]
  }

  /** `derive().debug().serialize()` */
  const DeriveLine: string := DeriveText(DeriveSerialize(DeriveDebug(NewDerive())))

  /** `Display for Protocol`. */
  function ProtocolText(fs: seq<Fun>, depth: nat): string
  {
    IrAtoms.ProtocolText(DeriveLine, depth, AtomFuns(fs))
  }

  // `Client`

  datatype ClientEmitter = ClientEmitter(handled: seq<Fun>, called: seq<Fun>, depth: nat, isRoot: bool)

  /** `Client::root`: one level more than the depth, to climb out of the
      client module itself. */
  function ClientRoot(c: ClientEmitter): string
  {
    Repeat(RustPaths.Up, c.depth + 1)
  }

  function ClientProtocol(c: ClientEmitter): string
  {
    ClientRoot(c) + "protocol"
  }

  /** The protocol path climbs `depth + 1` modules, then names `protocol`. */
  lemma ClientProtocolAscent(c: ClientEmitter)
    ensures RustPaths.Ascent(ClientProtocol(c)) == (c.depth + 1, "protocol")
  {
    RustPaths.NoClimb("protocol", "");
    RustPaths.AscentRepeat(c.depth + 1, "protocol");
  }

  function ClientFields(called: seq<Fun>): (r: seq<string>)
    ensures |r| == |called| && forall k :: 0 <= k < |called| ==> r[k] == Variant(called[k].tokens) + ": (),"
  {
    if called == [] then [] else ClientFields(called[..|called| - 1]) + [Variant(called[|called| - 1].tokens) + ": (),"]
  }

  const Todo: string := "// TODO"

  /** `define_client` */
  function DefineClient(c: ClientEmitter): seq<Cmd>
  {
    [Text("pub struct Client")] + BlockCmds(LinesCmds(ClientFields(c.called) + [Todo])) + [Text("\n")]
  }

  /** `define_call` */
  function DefineCall(): seq<Cmd>
  {
    [Text("pub struct Call<T, PP>")]
      + BlockCmds(LinesCmds(["pub state: std::sync::Arc<T>,", "pub client: Client,", "pub params: PP,"]))
      + [Text("\n")]
  }

  function SlotFnLine(c: ClientEmitter): string
  {
    "pub type SlotFn<T> = Fn(std::sync::Arc<T>, Client, " + ClientProtocol(c) + "::Params) -> SlotReturn + 'static + Send + Sync;"
  }

  /** `define_slot` */
  function DefineSlot(c: ClientEmitter): seq<Cmd>
  {
    [Text("pub type SlotFuture = Future"),
     Text(ListText(Angle, false, ["Output = Result<" + ClientProtocol(c) + "::Results, lavish_rpc::Error>"])),
     Text(" + Send + 'static;"), Text("\n"),
     Text("pub type SlotReturn = std::pin::Pin<Box<SlotFuture>>;"), Text("\n")]
      + LineCmds(SlotFnLine(c))
      + [Text("pub type Slot<T> = Option<Box<SlotFn<T>>>;"), Text("\n")]
  }

  function HandlerSlots(handled: seq<Fun>): (r: seq<string>)
    ensures |r| == |handled| && forall k :: 0 <= k < |handled| ==> r[k] == "on_" + handled[k].decl.name.text + ": Slot<T>,"
  {
    if handled == [] then [] else HandlerSlots(handled[..|handled| - 1]) + ["on_" + handled[|handled| - 1].decl.name.text + ": Slot<T>,"]
  }

  /** `define_handler` */
  function DefineHandler(c: ClientEmitter): seq<Cmd>
  {
    [Text("pub struct Handler<T>")] + BlockCmds(LinesCmds([Todo, "state: std::sync::Arc<T>,"] + HandlerSlots(c.handled))) + [Text("\n")]
  }

  /** `Display for Client` */
  function ClientCmds(c: ClientEmitter): seq<Cmd>
  {
    LineCmds("use futures::prelude::*;") + DefineClient(c) + DefineCall() + DefineSlot(c) + DefineHandler(c)
  }

  function ClientText(c: ClientEmitter): string
  {
    RenderOut(0, NeedIndent, ClientCmds(c))
  }

  /** The `Client` struct has one unit field per called function, named by
      its variant, in order, and then the TODO line. */
  lemma DefineClientLayout(c: ClientEmitter)
    requires forall k :: 0 <= k < |c.called| ==> '\n' !in RpcName(c.called[k].tokens)
    ensures RenderOut(0, NeedIndent, DefineClient(c))
      == "pub struct Client" + " {\n" + LinesText(IndentWidth, ClientFields(c.called) + [Todo]) + "}\n" + "\n"
  {
    var ls := ClientFields(c.called) + [Todo];
    forall k | 0 <= k < |ls|
      ensures '\n' !in ls[k]
    {
      if k < |c.called| {
        VariantSingleLine(c.called[k].tokens);
        assert ls[k] == Variant(c.called[k].tokens) + ": (),";
      }
    }
    HeadLinesBlank("pub struct Client", ls);
  }

  /** The `Handler` struct holds the TODO line and the state, then one slot
      per handled function, named after it, in order. */
  lemma DefineHandlerLayout(c: ClientEmitter)
    requires forall k :: 0 <= k < |c.handled| ==> '\n' !in c.handled[k].decl.name.text
    ensures RenderOut(0, NeedIndent, DefineHandler(c))
      == "pub struct Handler<T>" + " {\n" + LinesText(IndentWidth, [Todo, "state: std::sync::Arc<T>,"] + HandlerSlots(c.handled)) + "}\n" + "\n"
  {
    var ls := [Todo, "state: std::sync::Arc<T>,"] + HandlerSlots(c.handled);
    forall k | 0 <= k < |ls|
      ensures '\n' !in ls[k]
    {
      if k >= 2 {
        assert ls[k] == "on_" + c.handled[k - 2].decl.name.text + ": Slot<T>,";
      }
    }
    HeadLinesBlank("pub struct Handler<T>", ls);
  }
}
