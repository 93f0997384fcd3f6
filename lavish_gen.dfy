/** The Rust generator of lavish/src/codegen/rust/mod.rs: the context that
    selects functions by kind, the walk that writes one `pub mod` per
    namespace and per function, and the sections of the generated file.

    The generator calls `variant_name()` on a function, which the `Fun` of
    lavish/src/codegen/rust/ir.rs does not define; the model uses that
    file's `variant` (the rpc name with "." replaced by "__", lower-cased).
    Its own `FunKind` enum has the same two values as the IR's, and is
    modelled by it.  `to_snake_case` (heck) is a parameter. */
module LavishGen {
  import opened Common
  import opened LavishAst
  import opened LavishOutput
  import opened Layout
  import opened IrNames
  import opened LavishIr
  import IrAtoms
  import RustLang
  import RustTypes
  import RustPaths

  // `Context`

  /** `Context::new`: the root namespace of a schema body. */
  function Root(body: NamespaceBody): Namespace
  {
    NamespaceOf("", RootName, body)
  }

  predicate IsNotification(f: Fun)
  {
    Notification in f.decl.modifiers
  }

  /** `Context::funs(kind)`: the functions whose notification flag matches
      the kind, in order. */
  function FunsOf(kind: IrAtoms.FunKind, fs: seq<Fun>): (r: seq<Fun>)
    ensures forall f :: f in r <==> f in fs && (IsNotification(f) <==> kind == IrAtoms.Notification)
    ensures |r| <= |fs|
  {
    if fs == [] then []
    else
      var init := FunsOf(kind, fs[..|fs| - 1]);
      var last := fs[|fs| - 1];
      assert forall f :: f in fs <==> f in fs[..|fs| - 1] || f == last;
      if IsNotification(last) == (kind == IrAtoms.Notification) then init + [last] else init
  }

  /** `Context::funs` and `Atom::funs` pick the same functions: selecting
      by notification flag and then reading the atoms is reading the atoms
      and then selecting by kind. */
  lemma {:induction false} FunsOfAtoms(kind: IrAtoms.FunKind, fs: seq<Fun>)
    ensures AtomFuns(FunsOf(kind, fs)) == IrAtoms.OfKind(kind, AtomFuns(fs))
  {
    if fs != [] {
      var init := fs[..|fs| - 1];
      FunsOfAtoms(kind, init);
      assert AtomFuns(fs)[..|fs| - 1] == AtomFuns(init);
      var r := FunsOf(kind, fs);
      if IsNotification(fs[|fs| - 1]) == (kind == IrAtoms.Notification) {
        assert r[..|r| - 1] == FunsOf(kind, init);
      }
    }
  }

  // Rust types of fields

  ghost predicate FieldsValid(fields: seq<Field>)
  {
    forall k :: 0 <= k < |fields| ==> RustTypes.ValidSpans(fields[k].typ)
  }

  /** Every field type in the tree can be read from its source. */
  ghost predicate NsValid(ns: Namespace)
    decreases ns, 1
  {
    && (forall k :: 0 <= k < |ns.children| ==> NsValid(ns.children[k].1))
    && (forall k :: 0 <= k < |ns.funs| ==> FunValid(ns.funs[k].1))
    && (forall k :: 0 <= k < |ns.strus| ==> FieldsValid(ns.strus[k].1.decl.fields))
  }

  ghost predicate FunValid(f: Fun)
    decreases f, 0
  {
    FieldsValid(f.decl.params) && FieldsValid(f.decl.results) && (f.body.Some? ==> NsValid(f.body.value))
  }

  /** "pub name: type," */
  function FieldLine(f: Field): string
    requires RustTypes.ValidSpans(f.typ)
  {
    "pub " + f.name.text + ": " + RustTypes.FlatRustType(f.typ) + ","
  }

  /** The fields of a function's params or results struct, without their
      comments. */
  function FieldLines(fields: seq<Field>): (r: seq<string>)
    requires FieldsValid(fields)
    ensures |r| == |fields| && forall k :: 0 <= k < |fields| ==> r[k] == FieldLine(fields[k])
  {
    if fields == [] then [] else FieldLines(fields[..|fields| - 1]) + [FieldLine(fields[|fields| - 1])]
  }

  /** `comment(c)` */
  function CommentOf(c: Option<Comment>): seq<Cmd>
  {
    if c.None? then [] else CommentCmds(c.value.lines)
  }

  /** The fields of a declared struct, each after its comment. */
  function CommentedFields(fields: seq<Field>): seq<Cmd>
    requires FieldsValid(fields)
  {
    if fields == [] then []
    else CommentedFields(fields[..|fields| - 1]) + CommentOf(fields[|fields| - 1].comment) + LineCmds(FieldLine(fields[|fields| - 1]))
  }

  // `visit_ns` and `visit_ns_body`

  /** `visit_ns`: a `pub mod` block around the namespace's body, then a
      blank line. */
  function NsCmds(ns: Namespace, depth: nat, snake: string -> string): seq<Cmd>
    requires NsValid(ns)
    decreases ns, 3
  {
    LineCmds("pub mod " + ns.name + " {") + [Nested(NsBodyCmds(ns, depth, snake))] + LineCmds("}") + LineCmds("")
  }

  /** `visit_ns_body`: the child namespaces, the serde import, the structs,
      then the local functions. */
  function NsBodyCmds(ns: Namespace, depth: nat, snake: string -> string): seq<Cmd>
    requires NsValid(ns)
    decreases ns, 2
  {
    ChildCmds(ns, |ns.children|, depth, snake)
      + LineCmds("use lavish_rpc::serde_derive::*;") + LineCmds("")
      + StrusCmds(ns, |ns.strus|)
      + LocalFunCmds(ns, |ns.funs|, depth, snake)
  }

  function ChildCmds(ns: Namespace, n: nat, depth: nat, snake: string -> string): seq<Cmd>
    requires n <= |ns.children| && NsValid(ns)
    decreases ns, 1, n
  {
    if n == 0 then [] else ChildCmds(ns, n - 1, depth, snake) + NsCmds(ns.children[n - 1].1, depth + 1, snake)
  }

  function StrusCmds(ns: Namespace, n: nat): seq<Cmd>
    requires n <= |ns.strus| && NsValid(ns)
  {
    if n == 0 then []
    else
      var st := ns.strus[n - 1].1;
      StrusCmds(ns, n - 1) + CommentOf(st.decl.comment) + StructCmds(st.decl.name.text, CommentedFields(st.decl.fields)) + LineCmds("")
  }

  function LocalFunCmds(ns: Namespace, n: nat, depth: nat, snake: string -> string): seq<Cmd>
    requires n <= |ns.funs| && NsValid(ns)
    decreases ns, 1, n
  {
    if n == 0 then [] else LocalFunCmds(ns, n - 1, depth, snake) + FunCmds(ns.funs[n - 1].1, depth, snake)
  }

  /** `write_fun`: the comment and the module's first line at the
      namespace's level; everything else, the closing brace included, one
      level deeper. */
  function FunCmds(f: Fun, depth: nat, snake: string -> string): seq<Cmd>
    requires FunValid(f)
    decreases f, 3
  {
    CommentOf(f.decl.comment) + LineCmds("pub mod " + snake(f.decl.name.text) + " {") + [Nested(FunModuleCmds(f, depth, snake))]
  }

  /** The import of the generated root module from a function module:
      "super::" once per level, two more for the function module and the
      `__` module it sits in. */
  function UseRoot(depth: nat): string
  {
    "use " + Repeat(RustPaths.Up, depth + 2) + "__;"
  }

  lemma UseRootClimbs(depth: nat)
    ensures RustPaths.Ascent(Repeat(RustPaths.Up, depth + 2) + "__") == (depth + 2, "__")
  {
    RustPaths.NoClimb("__", "");
    assert "__" + "" == "__";
    RustPaths.AscentRepeat(depth + 2, "__");
  }

  /** The side the params struct downgrades from. */
  function ParamsSide(f: Fun): (r: string)
    ensures r == "NotificationParams" <==> IsNotification(f)
    ensures r == "Params" <==> !IsNotification(f)
  {
    if IsNotification(f) then "NotificationParams" else "Params"
  }

  /** `write_downgrade(side)` */
  function DowngradeCmds(side: string, f: Fun): seq<Cmd>
  {
    [Nested(
      LineCmds("pub fn downgrade(p: __::" + side + ") -> Option<Self> {")
      + [Nested(
          LineCmds("match p {")
          + [Nested(LineCmds("__::" + side + "::" + Variant(f.tokens) + "(p) => Some(p),") + LineCmds("_ => None,"))]
          + LineCmds("}"))]
      + LineCmds("}"))]
  }

  /** The results struct and its impl, for requests only. */
  function ResultsCmds(f: Fun): (r: seq<Cmd>)
    requires FieldsValid(f.decl.results)
    ensures r == [] <==> IsNotification(f)
  {
    if IsNotification(f) then []
    else
      LineCmds("") + StructCmds("Results", LinesCmds(FieldLines(f.decl.results)))
        + LineCmds("") + LineCmds("impl Results {") + DowngradeCmds("Results", f) + LineCmds("}")
  }

  const FunUses: seq<string> := ["use futures::prelude::*;", "use lavish_rpc::serde_derive::*;"]

  function FunModuleCmds(f: Fun, depth: nat, snake: string -> string): seq<Cmd>
    requires FunValid(f)
    decreases f, 2
  {
    LinesCmds(FunUses + [UseRoot(depth), ""])
      + StructCmds("Params", LinesCmds(FieldLines(f.decl.params)))
      + LineCmds("") + LineCmds("impl Params {") + DowngradeCmds(ParamsSide(f), f) + LineCmds("}")
      + ResultsCmds(f)
      + (if f.body.None? then [] else NsBodyCmds(f.body.value, depth + 1, snake))
      + LineCmds("}") + LineCmds("")
  }

  /** The functions `visit_ns_body` writes a module for, in the order it
      writes them: those of the child namespaces, then each local function
      followed by those of its body. */
  function Written(ns: Namespace): seq<Fun>
    decreases ns, 2
  {
    WrittenChildren(ns, |ns.children|) + WrittenLocal(ns, |ns.funs|)
  }

  function WrittenChildren(ns: Namespace, n: nat): seq<Fun>
    requires n <= |ns.children|
    decreases ns, 1, n
  {
    if n == 0 then [] else WrittenChildren(ns, n - 1) + Written(ns.children[n - 1].1)
  }

  function WrittenLocal(ns: Namespace, n: nat): seq<Fun>
    requires n <= |ns.funs|
    decreases ns, 1, n
  {
    if n == 0 then [] else WrittenLocal(ns, n - 1) + WrittenFun(ns.funs[n - 1].1)
  }

  function WrittenFun(f: Fun): seq<Fun>
    decreases f, 3
  {
    [f] + if f.body.None? then [] else Written(f.body.value)
  }

  /** The emitter writes one module per function, in exactly the order of
      `Namespace::funs`, which the enums and the atoms list them in. */
  lemma {:induction false} WrittenIsFuns(ns: Namespace)
    ensures Written(ns) == NsFuns(ns)
    decreases ns, 2
  {
    WrittenChildrenIsFuns(ns, |ns.children|);
    WrittenLocalIsFuns(ns, |ns.funs|);
  }

  lemma {:induction false} WrittenChildrenIsFuns(ns: Namespace, n: nat)
    requires n <= |ns.children|
    ensures WrittenChildren(ns, n) == ChildFuns(ns, n)
    decreases ns, 1, n
  {
    if n > 0 {
      WrittenChildrenIsFuns(ns, n - 1);
      WrittenIsFuns(ns.children[n - 1].1);
    }
  }

  lemma {:induction false} WrittenLocalIsFuns(ns: Namespace, n: nat)
    requires n <= |ns.funs|
    ensures WrittenLocal(ns, n) == LocalFuns(ns, n)
    decreases ns, 1, n
  {
    if n > 0 {
      WrittenLocalIsFuns(ns, n - 1);
      WrittenFunIsFuns(ns.funs[n - 1].1);
    }
  }

  lemma {:induction false} WrittenFunIsFuns(f: Fun)
    ensures WrittenFun(f) == FunFuns(f)
    decreases f, 3
  {
    if f.body.Some? {
      WrittenIsFuns(f.body.value);
    }
  }

  // The enums

  /** `write_enum`: one "variant(qualified::Kind)," line per function. */
  function EnumLines(kind: string, fs: seq<Fun>): (r: seq<string>)
    ensures |r| == |fs|
    ensures forall k :: 0 <= k < |fs| ==> r[k] == Variant(fs[k].tokens) + "(" + QualifiedName(fs[k].tokens) + "::" + kind + "),"
  {
    if fs == [] then []
    else EnumLines(kind, fs[..|fs| - 1]) + [Variant(fs[|fs| - 1].tokens) + "(" + QualifiedName(fs[|fs| - 1].tokens) + "::" + kind + "),"]
  }

  const EnumHead: seq<string> := ["", "#[derive(Serialize, Debug)]", "#[serde(untagged)]", "#[allow(non_camel_case_types, unused)]"]

  function EnumCmds(name: string, kind: string, fs: seq<Fun>): seq<Cmd>
  {
    LinesCmds(EnumHead + ["pub enum " + name + " {"]) + [Nested(LinesCmds(EnumLines(kind, fs)))] + LineCmds("}")
  }

  /** The three enums: requests' params and results, and notifications'
      params, whose variants hold the notifications' `Params` structs. */
  function EnumsCmds(all: seq<Fun>): seq<Cmd>
  {
    EnumCmds("Params", "Params", FunsOf(IrAtoms.Request, all))
      + EnumCmds("Results", "Results", FunsOf(IrAtoms.Request, all))
      + EnumCmds("NotificationParams", "Params", FunsOf(IrAtoms.Notification, all))
  }

  // `impl Client`

  function ParamsOf(f: Fun): FunStruct
  {
    FunStruct(ParamsStruct, f.tokens, |f.decl.params|)
  }

  function ResultsOf(f: Fun): FunStruct
  {
    FunStruct(ResultsStruct, f.tokens, |f.decl.results|)
  }

  /** The method takes a `p` argument exactly when the function has
      parameters. */
  function ParamsDef(f: Fun): (r: string)
    ensures r == "" <==> |f.decl.params| == 0
    ensures r != "" ==> r == ", p: " + QualifiedType(ParamsOf(f))
  {
    if |f.decl.params| == 0 then "" else ", p: " + QualifiedType(ParamsOf(f))
  }

  /** What the method passes: `p`, or an empty literal when there are no
      parameters. */
  function CallArgument(f: Fun): string
  {
    if |f.decl.params| == 0 then StructVariant(ParamsOf(f)) + "(" + EmptyLiteral(ParamsOf(f)) + "),"
    else StructVariant(ParamsOf(f)) + "(p),"
  }

  function ClientMethodCmds(f: Fun): seq<Cmd>
  {
    LineCmds("pub async fn " + Variant(f.tokens) + "(&self" + ParamsDef(f) + ") -> Result<" + QualifiedType(ResultsOf(f)) + ", lavish_rpc::Error> {")
      + [Nested(
          LineCmds("self.root.call(")
          + [Nested(LineCmds(CallArgument(f)) + LineCmds(QualifiedType(ResultsOf(f)) + "::downgrade,"))]
          + LineCmds(").await"))]
      + LineCmds("}") + LineCmds("")
  }

  function ClientMethodsCmds(fs: seq<Fun>): seq<Cmd>
  {
    if fs == [] then [] else ClientMethodsCmds(fs[..|fs| - 1]) + ClientMethodCmds(fs[|fs| - 1])
  }

  // `impl rpc::Atom`

  /** A `method` arm: the variant names its function's rpc name. */
  function MethodArm(side: string, f: Fun): string
  {
    side + "::" + Variant(f.tokens) + "(_) => " + RustLang.Quoted(RpcName(f.tokens)) + ","
  }

  function MethodArms(side: string, fs: seq<Fun>): (r: seq<string>)
    ensures |r| == |fs| && forall k :: 0 <= k < |fs| ==> r[k] == MethodArm(side, fs[k])
  {
    if fs == [] then [] else MethodArms(side, fs[..|fs| - 1]) + [MethodArm(side, fs[|fs| - 1])]
  }

  const Unimplemented: string := "_ => unimplemented!()"

  /** The arms of `method`'s match, as the counting loop writes them. */
  function MethodMatch(side: string, fs: seq<Fun>): seq<string>
  {
    MethodArms(side, fs) + if |fs| == 0 then [Unimplemented] else []
  }

  /** The loop of the `method` emitter: one arm per function while counting
      them, then the catch-all arm if there were none. */
  method WriteMethodMatch(side: string, fs: seq<Fun>) returns (lines: seq<string>)
    ensures lines == MethodMatch(side, fs)
  {
    lines := [];
    var count := 0;
    for i := 0 to |fs|
      invariant count == i
      invariant lines == MethodArms(side, fs[..i])
    {
      count := count + 1;
      assert fs[..i + 1][..i] == fs[..i];
      lines := lines + [MethodArm(side, fs[i])];
    }
    assert fs[..|fs|] == fs;
    if count == 0 {
      lines := lines + [Unimplemented];
    }
  }

  /** The catch-all arm is written exactly when the atom has no function,
      and then it is the only arm. */
  lemma UnimplementedIffEmpty(side: string, fs: seq<Fun>)
    requires side != "" && side[0] != '_'
    ensures Unimplemented in MethodMatch(side, fs) <==> fs == []
    ensures fs == [] ==> MethodMatch(side, fs) == [Unimplemented]
  {
    if fs != [] {
      var arms := MethodArms(side, fs);
      forall k | 0 <= k < |fs|
        ensures arms[k] != Unimplemented
      {
        assert arms[k][0] == side[0];
      }
    }
  }

  /** A `deserialize` arm: the rpc name selects the variant. */
  function DeserializeArm(side: string, strukt: string, f: Fun): seq<Cmd>
  {
    LineCmds(RustLang.Quoted(RpcName(f.tokens)) + " =>")
      + [Nested(LineCmds("Ok(" + side + "::" + Variant(f.tokens) + "(deser::<" + QualifiedName(f.tokens) + "::" + strukt + ">(de)?)),"))]
  }

  /** The arms of `deserialize`'s match: the `k`-th function's arm starts
      with its rpc name, quoted, and builds its variant. */
  function DeserializeArms(side: string, strukt: string, fs: seq<Fun>): (r: seq<Cmd>)
    ensures |r| == 3 * |fs|
    ensures forall k :: 0 <= k < |fs| ==> r[3 * k] == Text(IrAtoms.MethodLiteral(IrAtoms.AtomFun(KindOf(fs[k]), fs[k].tokens)) + " =>")
    ensures forall k :: 0 <= k < |fs| ==> r[3 * k + 2] == Nested(LineCmds("Ok(" + side + "::" + Variant(fs[k].tokens) + "(deser::<" + QualifiedName(fs[k].tokens) + "::" + strukt + ">(de)?)),"))
  {
    if fs == [] then []
    else
      var init := DeserializeArms(side, strukt, fs[..|fs| - 1]);
      assert forall k :: 0 <= k < |fs| - 1 ==> fs[..|fs| - 1][k] == fs[k];
      init + DeserializeArm(side, strukt, fs[|fs| - 1])
  }

  /** With distinct rpc names, the arm `deserialize` picks for the name
      `method` writes for the `k`-th function is that function's own. */
  lemma DispatchRoundTrip(fs: seq<Fun>, k: nat)
    requires k < |fs|
    requires forall i, j :: 0 <= i < j < |fs| ==> RpcName(fs[i].tokens) != RpcName(fs[j].tokens)
    ensures IrAtoms.Dispatch(AtomFuns(fs), RustLang.Quoted(RpcName(fs[k].tokens))) == Some(k)
  {
    var gs := AtomFuns(fs);
    assert IrAtoms.DistinctRpcNames(gs);
    IrAtoms.DispatchRoundTrip(gs, k);
  }

  const UnknownMethod: string := "unknown method: {}"

  function AtomImplCmds(strukt: string, side: string, fs: seq<Fun>): seq<Cmd>
  {
    LineCmds("") + LineCmds("impl rpc::Atom for " + side + " {")
      + [Nested(
          LineCmds("fn method(&self) -> &'static str {")
          + [Nested(LineCmds("match self {") + [Nested(LinesCmds(MethodMatch(side, fs)))] + LineCmds("}"))]
          + LineCmds("}")
          + LineCmds("")
          + LineCmds("fn deserialize(")
          + [Nested(LinesCmds(["method: &str,", "de: &mut erased_serde::Deserializer,"]))]
          + LineCmds(") -> erased_serde::Result<Self> {")
          + [Nested(
              LinesCmds(["use erased_serde::deserialize as deser;", "use serde::de::Error;", "", "match method {"])
              + [Nested(
                  DeserializeArms(side, strukt, fs)
                  + LineCmds("_ => Err(erased_serde::Error::custom(format!(")
                  + [Nested(LinesCmds([RustLang.Quoted(UnknownMethod) + ",", "method,"]))]
                  + LineCmds("))),"))]
              + LineCmds("}"))]
          + LineCmds("}"))]
      + LineCmds("}")
  }

  /** The three atom impls: requests' params and results, and
      notifications' params. */
  function AtomImplsCmds(all: seq<Fun>): seq<Cmd>
  {
    AtomImplCmds("Params", "Params", FunsOf(IrAtoms.Request, all))
      + AtomImplCmds("Results", "Results", FunsOf(IrAtoms.Request, all))
      + AtomImplCmds("Params", "NotificationParams", FunsOf(IrAtoms.Notification, all))
  }

  // `Call`, the slot types and `Handler`

  function CallAndSlotsCmds(): seq<Cmd>
  {
    LinesCmds(["", "pub struct Call<T, PP> {"])
      + [Nested(LinesCmds(["pub state: Arc<T>,", "pub client: Client,", "pub params: PP,"]))]
      + LinesCmds(["}", "", "pub type SlotFuture = "])
      + [Nested(LineCmds("Future<Output = Result<Results, rpc::Error>> + Send + 'static;"))]
      + LinesCmds(["", "pub type SlotReturn = Pin<Box<SlotFuture>>;", "", "pub type SlotFn<T> = "])
      + [Nested(LineCmds("Fn(Arc<T>, Client, Params) -> SlotReturn + 'static + Send + Sync;"))]
      + LinesCmds(["", "pub type Slot<T> = Option<Box<SlotFn<T>>>;"])
  }

  /** The handler's fields: the state, then one slot per request, named by
      its variant. */
  function HandlerFields(fs: seq<Fun>): (r: seq<string>)
    ensures |r| == |fs| + 1 && r[0] == "state: Arc<T>,"
    ensures forall k :: 0 <= k < |fs| ==> r[k + 1] == Variant(fs[k].tokens) + ": Slot<T>,"
  {
    if fs == [] then ["state: Arc<T>,"] else HandlerFields(fs[..|fs| - 1]) + [Variant(fs[|fs| - 1].tokens) + ": Slot<T>,"]
  }

  /** `Handler::new`'s initialisers: the state, then every slot empty. */
  function HandlerInits(fs: seq<Fun>): (r: seq<string>)
    ensures |r| == |fs| + 1 && r[0] == "state,"
    ensures forall k :: 0 <= k < |fs| ==> r[k + 1] == Variant(fs[k].tokens) + ": None,"
  {
    if fs == [] then ["state,"] else HandlerInits(fs[..|fs| - 1]) + [Variant(fs[|fs| - 1].tokens) + ": None,"]
  }

  /** The text before ":" of a field or initialiser line. */
  function FieldName(line: string): string
  {
    if line == [] || line[0] == ':' then "" else [line[0]] + FieldName(line[1..])
  }

  lemma {:induction false} FieldNameOf(name: string, rest: string)
    requires ':' !in name && rest != [] && rest[0] == ':'
    ensures FieldName(name + rest) == name
    decreases |name|
  {
    if name != "" {
      assert (name + rest)[1..] == name[1..] + rest;
      FieldNameOf(name[1..], rest);
    } else {
      assert name + rest == rest;
    }
  }

  /** `Handler::new` initialises exactly the slots the struct declares, in
      the same order: every slot starts empty. */
  lemma HandlerInitsCoverFields(fs: seq<Fun>, k: nat)
    requires k < |fs| && ':' !in Variant(fs[k].tokens)
    ensures FieldName(HandlerFields(fs)[k + 1]) == FieldName(HandlerInits(fs)[k + 1]) == Variant(fs[k].tokens)
  {
    var v := Variant(fs[k].tokens);
    FieldNameOf(v, ": Slot<T>,");
    FieldNameOf(v, ": None,");
  }

  /** An `on_<variant>` registration method. */
  function OnCmds(f: Fun): seq<Cmd>
  {
    var v := Variant(f.tokens);
    var p, r := ParamsOf(f), ResultsOf(f);
    LineCmds("") + LineCmds("pub fn on_" + v + "<F, FT> (&mut self, f: F)") + LineCmds("where")
      + [Nested(LinesCmds([
          "F: Fn(Call<T, " + QualifiedType(p) + ">) -> FT + Sync + Send + 'static,",
          "FT: Future<Output = Result<" + ShortType(r) + ", lavish_rpc::Error>> + Send + 'static,"]))]
      + LineCmds("{")
      + [Nested(
          LineCmds("self." + v + " = Some(Box::new(move |state, client, params| {")
          + [Nested(
              LineCmds("Box::pin(")
              + [Nested(
                  LineCmds("f(Call {")
                  + [Nested(LinesCmds(["state, client,", "params: " + QualifiedType(p) + "::downgrade(params).unwrap(),"]))]
                  + LineCmds(MapOk(r)))]
              + LineCmds(")"))]
          + LineCmds("}));"))]
      + LineCmds("}")
  }

  /** How the handler turns the user's result into the results variant: an
      empty results struct is built from its literal. */
  function MapOk(r: FunStruct): string
  {
    if r.fieldCount == 0 then "}).map_ok(|_| " + StructVariant(r) + "(" + EmptyLiteral(r) + "))"
    else "}).map_ok(" + StructVariant(r) + ")"
  }

  function OnsCmds(fs: seq<Fun>): seq<Cmd>
  {
    if fs == [] then [] else OnsCmds(fs[..|fs| - 1]) + OnCmds(fs[|fs| - 1])
  }

  /** `handle`'s arms: each request's params go to the slot of the same
      name. */
  function SlotArms(fs: seq<Fun>): (r: seq<string>)
    ensures |r| == |fs| && forall k :: 0 <= k < |fs| ==> r[k] == "Params::" + Variant(fs[k].tokens) + "(_) => self." + Variant(fs[k].tokens) + ".as_ref(),"
  {
    if fs == [] then []
    else SlotArms(fs[..|fs| - 1]) + ["Params::" + Variant(fs[|fs| - 1].tokens) + "(_) => self." + Variant(fs[|fs| - 1].tokens) + ".as_ref(),"]
  }

  const HandlerRet: string := "type HandlerRet = Pin<Box<dyn Future<Output = Result<Results, rpc::Error>> + Send + 'static>>;"
  const HandlerImplHead: string := "impl<T> rpc::Handler<Params, NotificationParams, Results, HandlerRet> for Handler<T>"
  const SlotCall: string := "let res = slot_fn(self.state.clone(), Client { root: client }, params);"
  const SlotMissing: string := "None => Box::pin(async move { Err(rpc::Error::MethodUnimplemented(method)) }),"

  function HandlerCmds(fs: seq<Fun>): seq<Cmd>
  {
    LinesCmds(["", "pub struct Handler<T> {"]) + [Nested(LinesCmds(HandlerFields(fs)))] + LineCmds("}")
      + LinesCmds(["", "impl<T> Handler<T> {"])
      + [Nested(
          LineCmds("pub fn new(state: Arc<T>) -> Self {")
          + [Nested(LineCmds("Self {") + [Nested(LinesCmds(HandlerInits(fs)))] + LineCmds("}"))]
          + LineCmds("}")
          + OnsCmds(fs)
          + LineCmds(""))]
      + LineCmds("}")
      + LinesCmds(["", HandlerRet, "", HandlerImplHead, "where"]) + [Nested(LineCmds("T: Send + Sync,"))] + LineCmds("{")
      + [Nested(
          LineCmds("fn handle(&self, client: RootClient, params: Params) -> HandlerRet {")
          + [Nested(
              LinesCmds(["let method = params.method();", "let slot = match params {"])
              + [Nested(LinesCmds(SlotArms(fs) + ["_ => None,"]))]
              + LinesCmds(["};", "match slot {"])
              + [Nested(
                  LineCmds("Some(slot_fn) => {")
                  + [Nested(LinesCmds([SlotCall, "Box::pin(async move { Ok(res.await?) })"]))]
                  + LineCmds("}")
                  + LineCmds(SlotMissing))]
              + LineCmds("}"))]
          + LineCmds("}"))]
      + LineCmds("}")
  }

  // `PeerBuilder` and `peer`

  function WhereConn(): seq<Cmd>
  {
    LineCmds("where") + [Nested(LineCmds("C: lavish_rpc::Conn,"))] + LineCmds("{")
  }

  const StatefulHead: string := "pub fn with_stateful_handler<T, S>(self, state: Arc<T>, setup: S) -> Result<Client, lavish_rpc::Error>"
  const ConnectLine: string := "let root = lavish_rpc::connect(protocol(), handler, self.conn, self.pool)?;"

  function PeerCmds(): seq<Cmd>
  {
    LinesCmds(["", "pub struct PeerBuilder<C>"]) + WhereConn()
      + [Nested(LinesCmds(["conn: C,", "pool: futures::executor::ThreadPool,"]))] + LineCmds("}")
      + LinesCmds(["", "impl<C> PeerBuilder<C>"]) + WhereConn()
      + [Nested(
          LineCmds("pub fn new(conn: C, pool: futures::executor::ThreadPool) -> Self {")
          + [Nested(LineCmds("Self { conn, pool }"))] + LineCmds("}")
          + LinesCmds(["", "pub fn with_noop_handler(self) -> Result<Client, lavish_rpc::Error> {"])
          + [Nested(LineCmds("self.with_handler(|_| {})"))] + LineCmds("}")
          + LinesCmds(["", "pub fn with_handler<S>(self, setup: S) -> Result<Client, lavish_rpc::Error>", "where"])
          + [Nested(LineCmds("S: Fn(&mut Handler<()>),"))] + LineCmds("{")
          + [Nested(LineCmds("self.with_stateful_handler(std::sync::Arc::new(()), setup)"))] + LineCmds("}")
          + LinesCmds(["", StatefulHead, "where"])
          + [Nested(LinesCmds(["S: Fn(&mut Handler<T>),", "T: Sync + Send + 'static,"]))] + LineCmds("{")
          + [Nested(LinesCmds(["let mut handler = Handler::new(state);", "setup(&mut handler);", ConnectLine, "Ok(Client { root })"]))]
          + LineCmds("}"))]
      + LineCmds("}")
      + LinesCmds(["", "pub fn peer<C>(conn: C, pool: futures::executor::ThreadPool) -> PeerBuilder<C>"]) + WhereConn()
      + [Nested(LineCmds("PeerBuilder::new(conn, pool)"))] + LineCmds("}")
  }

  // `Generator::emit`

  const Prelude: seq<string> := [
    "// This file is generated by lavish: DO NOT EDIT",
    "// https://github.com/fasterthanlime/lavish",
    "",
    "#![cfg_attr(rustfmt, rustfmt_skip)]",
    "#![allow(clippy::all)]",
    "#![allow(unknown_lints)]",
    "#![allow(unused)]",
    ""]

  const ModUses: seq<string> := [
    "// Notes: as of 2019-05-21, futures-preview is required",
    "use futures::prelude::*;",
    "use std::pin::Pin;",
    "use std::sync::Arc;",
    "",
    "use lavish_rpc as rpc;",
    "use rpc::{Atom, erased_serde, serde_derive::*};"]

  const RpcAliases: seq<string> := [
    "",
    "pub type Message = rpc::Message<Params, NotificationParams, Results>;",
    "pub type RootClient = rpc::Client<Params, NotificationParams, Results>;",
    "pub type Protocol = rpc::Protocol<Params, NotificationParams, Results>;",
    "",
    "pub fn protocol() -> Protocol {"]

  /** The first half of `mod __`: the imports, the three enums, the
      protocol, the client and the atom impls. */
  function RpcCmds(all: seq<Fun>): seq<Cmd>
  {
    LinesCmds(ModUses)
      + EnumsCmds(all)
      + LinesCmds(RpcAliases) + [Nested(LineCmds("Protocol::new()"))] + LineCmds("}")
      + LinesCmds(["", "pub struct Client {"]) + [Nested(LineCmds("root: RootClient,"))] + LineCmds("}")
      + LinesCmds(["", "impl Client {"]) + [Nested(ClientMethodsCmds(FunsOf(IrAtoms.Request, all)))] + LineCmds("}")
      + AtomImplsCmds(all)
  }

  /** What `emit` writes inside `mod __`, section by section; `root` is
      the context's root namespace. */
  function ModCmds(root: Namespace, snake: string -> string): seq<Cmd>
    requires NsValid(root)
  {
    var all := NsFuns(root);
    RpcCmds(all) + CallAndSlotsCmds() + HandlerCmds(FunsOf(IrAtoms.Request, all))
      + LineCmds("") + NsBodyCmds(root, 0, snake) + PeerCmds()
  }

  /** The file around the contents of `mod __`: the prelude, the
      re-export, and the module. */
  function FileCmds(inner: seq<Cmd>): seq<Cmd>
  {
    LinesCmds(Prelude) + LinesCmds(["pub use __::*;", "", "mod __ {"]) + [Nested(inner)] + LineCmds("}")
  }

  /** `emit` for the root namespace of a member's schema. */
  function EmitCmds(root: Namespace, snake: string -> string): seq<Cmd>
    requires NsValid(root)
  {
    FileCmds(ModCmds(root, snake))
  }

  /** Where `emit` writes a member: `<dir>/<member>/mod.rs`. */
  function OutputPath(ws: Workspace, member: WorkspaceMember): (r: Path)
    ensures |r| == |ws.dir| + 2 && r[..|ws.dir|] == ws.dir && r[|ws.dir|] == member.name && r[|ws.dir| + 1] == "mod.rs"
  {
    ws.dir + [member.name, "mod.rs"]
  }

  /** The generated file starts with the prelude, line for line, whatever
      the schema holds. */
  lemma FileStartsWithPrelude(inner: seq<Cmd>)
    ensures var text := RenderOut(0, NeedIndent, FileCmds(inner));
      var head := LinesText(0, Prelude);
      |head| <= |text| && text[..|head|] == head
  {
    var a := LinesCmds(Prelude);
    var rest := LinesCmds(["pub use __::*;", "", "mod __ {"]) + [Nested(inner)] + LineCmds("}");
    assert FileCmds(inner) == a + rest;
    RenderAppend(0, NeedIndent, a, rest);
    FlatLines(Prelude);
  }

  // `emit_workspace`

  /** The member names in the order the workspace's map yields them. */
  function MemberNames(ws: Workspace, order: seq<string>): (r: seq<string>)
    requires forall k :: 0 <= k < |order| ==> order[k] in ws.members
    ensures |r| == |order| && forall k :: 0 <= k < |order| ==> r[k] == ws.members[order[k]].name
  {
    if order == [] then [] else MemberNames(ws, order[..|order| - 1]) + [ws.members[order[|order| - 1]].name]
  }

  /** "pub mod <name>;" per member. */
  function ModLines(names: seq<string>): (r: seq<string>)
    ensures |r| == |names| && forall k :: 0 <= k < |names| ==> r[k] == "pub mod " + names[k] + ";"
  {
    if names == [] then [] else ModLines(names[..|names| - 1]) + ["pub mod " + names[|names| - 1] + ";"]
  }

  /** The workspace's `mod.rs`: the prelude, then one module per member.
      `order` is the map's iteration order, which the source leaves to the
      hash map: each key once. */
  function WorkspaceModCmds(ws: Workspace, order: seq<string>): seq<Cmd>
    requires forall k :: 0 <= k < |order| ==> order[k] in ws.members
  {
    LinesCmds(Prelude + ModLines(MemberNames(ws, order)))
  }

  /** The workspace's `mod.rs` is the prelude followed by one
      "pub mod <name>;" line per member, in iteration order. */
  lemma WorkspaceModText(ws: Workspace, order: seq<string>)
    requires forall k :: 0 <= k < |order| ==> order[k] in ws.members
    ensures RenderOut(0, NeedIndent, WorkspaceModCmds(ws, order))
      == LinesText(0, Prelude) + LinesText(0, ModLines(MemberNames(ws, order)))
  {
    FlatLines(Prelude + ModLines(MemberNames(ws, order)));
    LinesAppend(0, Prelude, ModLines(MemberNames(ws, order)));
  }

  /** With every key listed once, every member gets its module line, and
      `emit` writes every member's file to its own directory. */
  lemma WorkspaceCovers(ws: Workspace, order: seq<string>, key: string)
    requires forall k :: 0 <= k < |order| ==> order[k] in ws.members
    requires key in ws.members && key in order
    ensures "pub mod " + ws.members[key].name + ";" in ModLines(MemberNames(ws, order))
  {
    var k :| 0 <= k < |order| && order[k] == key;
    assert ModLines(MemberNames(ws, order))[k] == "pub mod " + ws.members[key].name + ";";
  }
}
