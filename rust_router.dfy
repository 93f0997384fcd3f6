/** The router emitter (src/codegen/rust/ir/router.rs): for one side of a
    protocol, the `Call` struct handed to slots, the slot aliases, and the
    `Router` that dispatches incoming calls to the registered slots.

    Several builder calls it makes are defined nowhere in the source and
    are rendered here as follows.  The one-argument `_impl(name)` is an
    inherent impl, `impl<T: B> Name<T>` (`InherentCmds`).  `type_param(name)`
    adds a parameter without a bound, `type_param_bound(name, bound)` one
    with a bound.  `_impl_trait(trait, name)` is the two-argument `_impl`.
    Both kinds of impl put the bounds on `impl<...>`, as the corrected
    `RustLang.ImplCmds` does, not on the type's arguments as
    src/codegen/rust/lang.rs:219-238 writes them.  `in_terminated_block(term,
    f)` is `Layout.TermBlockCmds`, and the stack's `quadruplet` is a
    parameter. */
module RustRouter {
  import opened Common
  import opened NewAst
  import opened Anchored
  import opened LavishOutput
  import opened Layout
  import opened RustPaths
  import opened RustLang

  /** The emitter: the side whose calls it dispatches, and the namespace
      body, anchored in its stack. */
  datatype Router = Router(side: Side, body: Anchored<NamespaceBody>)

  /** The bound every router's state type carries. */
  const StateBound := "Send + Sync + 'static"

  // `define_call`

  function CallFields(r: Router): seq<string>
  {
    ["pub state: " + ArcStruct + "<T>,", "pub client: " + SideClient(r.side) + ",", "pub params: P,"]
  }

  function CallStructCmds(r: Router): seq<Cmd>
  {
    [Text("pub struct Call<T, P>")] + BlockCmds(LinesCmds(CallFields(r))) + [Text("\n")]
  }

  /** The fields of the converted call: state and client carried over, the
      parameters mapped through `f`, a `None` becoming `WrongParams`. */
  function DowncastFields(): seq<string>
  {
    ["state: self.state,", "client: self.client,", "params: f(self.params).ok_or_else(|| " + ErrorStruct + "::WrongParams)?,"]
  }

  function DowncastBody(): seq<Cmd>
  {
    [Text("Ok(Call")] + TermBlockCmds(")", LinesCmds(DowncastFields()))
  }

  function DowncastFn(): FnBuilder
  {
    var f := FnTypeParam(FnTypeParam(FnSelfParam(NewFn("downcast"), "self"), "PP", None), "F", Some("Fn(P) -> Option<PP>"));
    FnBody(FnReturns(FnParam(f, "f: F"), "Result<Call<T, PP>, " + ErrorStruct + ">"), DowncastBody())
  }

  function ShutdownFn(): FnBuilder
  {
    FnBody(FnKwPub(FnSelfParam(NewFn("shutdown_runtime"), "&self")), LineCmds("self.client.caller.shutdown_runtime();"))
  }

  /** `_impl(name)`: an impl without a trait. */
  function Inherent(name: string): (r: ImplBuilder)
    ensures r.name == name && r.typeParams == [] && r.body.None?
  {
    NewImpl("", name)
  }

  function InherentCmds(i: ImplBuilder): seq<Cmd>
  {
    Texts(["impl", ListText(Angle, true, BoundedAll(i.typeParams)), " " + i.name, ListText(Angle, true, ParamNames(i.typeParams))])
      + BlockCmds(ImplBodyCmds(i))
  }

  function InherentText(i: ImplBuilder): string
  {
    RenderOut(0, NeedIndent, InherentCmds(i))
  }

  function CallImpl(): ImplBuilder
  {
    ImplBody(ImplTypeParam(ImplTypeParam(Inherent("Call"), "T", None), "P", None), [Text(FnText(DowncastFn())), Text(FnText(ShutdownFn()))])
  }

  function CallSectionCmds(r: Router): seq<Cmd>
  {
    CallStructCmds(r) + [Text(InherentText(CallImpl()))]
  }

  // `define_slot`

  function SlotLines(st: Stack): seq<string>
  {
    [ "pub type SlotReturn = Result<" + Results(st) + ", " + ErrorStruct + ">;",
      "pub type SlotFn<T> = Fn(Call<T, " + Params(st) + ">) -> SlotReturn + 'static + Send + Sync;" ]
  }

  function SlotCmds(st: Stack): seq<Cmd>
  {
    LinesCmds(SlotLines(st))
  }

  // `define_router`

  function RouterFields(): seq<string>
  {
    ["state: std::sync::Arc<T>,", "slots: " + HashMapStruct + "<&'static str, Box<SlotFn<T>>>,"]
  }

  /** The struct head, a `where` line, the bound one level deeper, then the
      fields in a block. */
  function RouterStructCmds(): seq<Cmd>
  {
    WhereStructCmds("pub struct Router<T>", "where", "T: ", StateBound, RouterFields())
  }

  /** A head line, a `where` line, the bound one scope deeper, a block of
      field lines and a blank line. */
  function WhereStructCmds(h: string, w: string, t: string, bound: string, ls: seq<string>): seq<Cmd>
  {
    LineCmds(h) + LineCmds(w) + [Nested([Text(t), Text(bound), Text("\n")])] + BlockCmds(LinesCmds(ls)) + [Text("\n")]
  }

  /** `write_constructor` */
  function ConstructorFn(): FnBuilder
  {
    var body := [Text("Self")] + BlockCmds(LinesCmds(["state,", "slots: " + HashMapStruct + "::new(),"]));
    FnBody(FnReturns(FnParam(FnKwPub(NewFn("new")), "state: " + ArcStruct + "<T>"), "Self"), body)
  }

  /** The body of the registering `handle`: a boxed closure under the
      method name that downcasts the parameters and upcasts the results. */
  function RegisterBody(): seq<Cmd>
  {
    [Text(InsertHead)] + TermBlockCmds("));", LinesCmds(RegisterLines))
  }

  /** `write_handle` */
  function RegisterFn(st: Stack): FnBuilder
  {
    var f := FnTypeParam(FnKwPub(NewFn("handle")), "S", Some("Fn() -> " + Slottable(st) + "<P, R>"));
    var g := FnTypeParam(FnTypeParam(f, "P", None), "R", Some(Implementable(st) + "<P>"));
    var h := FnTypeParam(g, "F", Some("Fn(Call<T, P>) -> Result<R, " + ErrorStruct + "> + 'static + Send + Sync"));
    FnBody(FnParam(FnParam(FnSelfParam(h, "&mut self"), "s: S"), "f: F"), RegisterBody())
  }

  function RouterImpl(st: Stack): ImplBuilder
  {
    ImplBody(ImplTypeParam(Inherent("Router"), "T", Some(StateBound)), [Text(FnText(ConstructorFn())), Text(FnText(RegisterFn(st)))])
  }

  /** The fields of the call a slot receives. */
  function HandleCallFields(r: Router): seq<string>
  {
    ["state: self.state.clone(),", "client: " + SideClient(r.side) + " { caller },", "params,"]
  }

  /** `write_handle_body` */
  function HandleBody(r: Router): seq<Cmd>
  {
    LineCmds("use " + AtomTrait + ";")
      + LineCmds("let slot = self.slots.get(params.method())")
      + [Nested(LineCmds(".ok_or_else(|| " + ErrorStruct + "::MethodUnimplemented(params.method()))?;"))]
      + ([Text("let call = Call")] + TermBlockCmds(";", LinesCmds(HandleCallFields(r))))
      + LineCmds("slot(call)")
  }

  function HandleFn(r: Router): FnBuilder
  {
    var st := r.body.stack;
    var f := FnParam(FnSelfParam(NewFn("handle"), "&self"), "caller: " + Caller(st) + ", params: " + Params(st));
    FnBody(FnReturns(f, "Result<" + Results(st) + ", " + ErrorStruct + ">"), HandleBody(r))
  }

  function MakeClientFn(st: Stack): FnBuilder
  {
    FnBody(FnReturns(FnParam(NewFn("make_client"), "caller: " + Caller(st)), "Client"), LineCmds("Client { caller }"))
  }

  function HandlerImpl(r: Router, quadruplet: string): ImplBuilder
  {
    var trt := Lavish + "::Handler<Client, " + quadruplet + ">";
    ImplBody(ImplTypeParam(NewImpl(trt, "Router"), "T", Some(StateBound)),
      [Text(FnText(HandleFn(r))), Text(FnText(MakeClientFn(r.body.stack)))])
  }

  function RouterSectionCmds(r: Router, quadruplet: string): seq<Cmd>
  {
    RouterStructCmds() + [Text(InherentText(RouterImpl(r.body.stack)))] + [Text(ImplText(HandlerImpl(r, quadruplet)))]
  }

  /** `Display for Router`: call, slot, router. */
  function RouterCmds(r: Router, quadruplet: string): seq<Cmd>
  {
    CallSectionCmds(r) + SlotCmds(r.body.stack) + RouterSectionCmds(r, quadruplet)
  }

  function RouterText(r: Router, quadruplet: string): string
  {
    RenderOut(0, NeedIndent, RouterCmds(r, quadruplet))
  }

  // Layout

  /** The router's text is the call section, the slot aliases one per line,
      and the router section, in that order. */
  lemma RouterLayout(r: Router, quadruplet: string)
    ensures RouterText(r, quadruplet)
      == RenderOut(0, NeedIndent, CallSectionCmds(r)) + RenderOut(0, NeedIndent, SlotCmds(r.body.stack))
        + RenderOut(0, NeedIndent, RouterSectionCmds(r, quadruplet))
  {
    FlatAppend3(CallSectionCmds(r), SlotCmds(r.body.stack), RouterSectionCmds(r, quadruplet));
  }

  /** The slot aliases: one line each, at column 0. */
  lemma SlotLayout(st: Stack)
    ensures RenderOut(0, NeedIndent, SlotCmds(st)) == LinesText(0, SlotLines(st))
  {
    SlotLinesSingle(st);
    FlatLines(SlotLines(st));
  }

  lemma SlotLinesSingle(st: Stack)
    ensures forall k :: 0 <= k < |SlotLines(st)| ==> '\n' !in SlotLines(st)[k]
  {
    ProtocolItemSingleLine(st, "Results");
    ProtocolItemSingleLine(st, "Params");
    ErrorSingleLine();
    SlotReturnSingle(Results(st), ErrorStruct);
    SlotFnSingle(Params(st));
  }

  lemma ErrorSingleLine()
    ensures '\n' !in ErrorStruct && '\n' !in ArcStruct && '\n' !in HashMapStruct
  {
  }

  lemma SlotReturnSingle(r: string, e: string)
    requires '\n' !in r && '\n' !in e
    ensures '\n' !in "pub type SlotReturn = Result<" + r + ", " + e + ">;"
  {
  }

  lemma SlotFnSingle(p: string)
    requires '\n' !in p
    ensures '\n' !in "pub type SlotFn<T> = Fn(Call<T, " + p + ">) -> SlotReturn + 'static + Send + Sync;"
  {
    var h, t := "pub type SlotFn<T> = Fn(Call<T, ", ">) -> SlotReturn + 'static + Send + Sync;";
    assert '\n' !in h && '\n' !in t;
    NotInAppend('\n', h, p);
    NotInAppend('\n', h + p, t);
  }

  lemma SideClientSingle(side: Side)
    ensures '\n' !in SideClient(side)
  {
  }

  /** The `Call` struct holds the state, the other side's client and the
      parameters, then a blank line. */
  lemma CallStructLayout(r: Router)
    ensures RenderOut(0, NeedIndent, CallStructCmds(r))
      == "pub struct Call<T, P>" + " {\n" + LinesText(IndentWidth, CallFields(r)) + "}\n" + "\n"
  {
    SideClientSingle(r.side);
    ErrorSingleLine();
    CallFieldsSingle(ArcStruct, SideClient(r.side));
    HeadLinesBlank("pub struct Call<T, P>", CallFields(r));
  }

  lemma CallFieldsSingle(arc: string, client: string)
    requires '\n' !in arc && '\n' !in client
    ensures var ls := ["pub state: " + arc + "<T>,", "pub client: " + client + ",", "pub params: P,"];
      forall k :: 0 <= k < |ls| ==> '\n' !in ls[k]
  {
  }

  /** `downcast`'s body at any indentation: `Ok(Call {`, the converted
      fields one level deeper, then `})`. */
  lemma DowncastBodyLayout(indent: nat)
    ensures RenderOut(indent, NeedIndent, DowncastBody())
      == Spaces(indent) + "Ok(Call" + " {\n" + LinesText(indent + IndentWidth, DowncastFields())
        + (Spaces(indent) + ("}" + ")")) + "\n"
  {
    ErrorSingleLine();
    DowncastFieldsSingle(ErrorStruct);
    TermBlockOfLines(indent, "Ok(Call", ")", DowncastFields());
  }

  lemma DowncastFieldsSingle(e: string)
    requires '\n' !in e
    ensures var ls := ["state: self.state,", "client: self.client,", "params: f(self.params).ok_or_else(|| " + e + "::WrongParams)?,"];
      forall k :: 0 <= k < |ls| ==> '\n' !in ls[k]
  {
  }

  /** The router struct: its head and `where` at column 0, the bound on
      `T` one level deeper, " {" on a line of its own (the `where` line
      already ended), the two fields, "}" and a blank line. */
  lemma RouterStructLayout()
    ensures RenderOut(0, NeedIndent, RouterStructCmds())
      == "pub struct Router<T>" + "\n" + "where" + "\n" + (Spaces(IndentWidth) + "T: " + StateBound + "\n")
        + (" {\n" + LinesText(IndentWidth, RouterFields()) + "}\n") + "\n"
  {
    ErrorSingleLine();
    RouterFieldsSingle(HashMapStruct);
    WhereBlock("pub struct Router<T>", "where", "T: ", StateBound, RouterFields());
  }

  lemma RouterFieldsSingle(m: string)
    requires '\n' !in m
    ensures var ls := ["state: std::sync::Arc<T>,", "slots: " + m + "<&'static str, Box<SlotFn<T>>>,"];
      forall k :: 0 <= k < |ls| ==> '\n' !in ls[k]
  {
  }

  /** A head line, a `where` line, a child scope's bound line, then a block
      of lines and a blank line, at column 0. */
  lemma WhereBlock(h: string, w: string, t: string, bound: string, ls: seq<string>)
    requires '\n' !in h && '\n' !in w && t != "" && '\n' !in t && '\n' !in bound
    requires forall k :: 0 <= k < |ls| ==> '\n' !in ls[k]
    ensures RenderOut(0, NeedIndent, WhereStructCmds(h, w, t, bound, ls))
      == h + "\n" + w + "\n" + (Spaces(IndentWidth) + t + bound + "\n") + (" {\n" + LinesText(IndentWidth, ls) + "}\n") + "\n"
  {
    var a := LineCmds(h) + LineCmds(w) + [Nested([Text(t), Text(bound), Text("\n")])];
    WhereHead(h, w, t, bound);
    FlatLinesBlock(ls);
    BlankLine();
    FlatAppend3(a, BlockCmds(LinesCmds(ls)), [Text("\n")]);
  }

  lemma BlankLine()
    ensures RenderOut(0, NeedIndent, [Text("\n")]) == "\n"
  {
    OneText(0, NeedIndent, "\n");
    OutFlat(NeedIndent, "\n");
  }

  lemma FlatLinesBlock(ls: seq<string>)
    requires forall k :: 0 <= k < |ls| ==> '\n' !in ls[k]
    ensures RenderOut(0, NeedIndent, BlockCmds(LinesCmds(ls))) == " {\n" + LinesText(IndentWidth, ls) + "}\n"
  {
    FlatBlock(NeedIndent, LinesCmds(ls));
    LinesLayout(IndentWidth, ls);
  }

  lemma WhereHead(h: string, w: string, t: string, bound: string)
    requires '\n' !in h && '\n' !in w && t != "" && '\n' !in t && '\n' !in bound
    ensures RenderOut(0, NeedIndent, LineCmds(h) + LineCmds(w) + [Nested([Text(t), Text(bound), Text("\n")])])
      == h + "\n" + w + "\n" + (Spaces(IndentWidth) + t + bound + "\n")
  {
    var b := [Nested([Text(t), Text(bound), Text("\n")])];
    OneLine(0, h);
    OneLine(0, w);
    assert IndentLine(0, h) == h && IndentLine(0, w) == w by {
      assert Spaces(0) == "";
    }
    AppendAtLineStart(0, LineCmds(h), LineCmds(w));
    AppendAtLineStart(0, LineCmds(h) + LineCmds(w), b);
    NestedAlone(0, [Text(t), Text(bound), Text("\n")]);
    BoundLine(t, bound);
  }

  lemma BoundLine(t: string, bound: string)
    requires t != "" && '\n' !in t && '\n' !in bound
    ensures RenderOut(IndentWidth, NeedIndent, [Text(t), Text(bound), Text("\n")]) == Spaces(IndentWidth) + t + bound + "\n"
  {
    var cmds := [Text(t), Text(bound), Text("\n")];
    assert cmds[..2] == [Text(t), Text(bound)];
    TwoTexts(IndentWidth, NeedIndent, t, bound);
    OutToken(IndentWidth, NeedIndent, t + bound);
    assert '\n' !in t + bound;
    assert Out(IndentWidth, Indented, "\n") == "\n";
  }

  /** `handle`'s body at any indentation: the `Atom` import, the slot
      looked up by the method name, a missing slot turned into
      `MethodUnimplemented` one level deeper, the call built in a block
      closed by "};", then the slot called on it. */
  lemma HandleBodyLayout(r: Router, indent: nat)
    ensures RenderOut(indent, NeedIndent, HandleBody(r))
      == IndentLine(indent, "use " + AtomTrait + ";") + "\n"
        + IndentLine(indent, "let slot = self.slots.get(params.method())") + "\n"
        + IndentLine(indent + IndentWidth, ".ok_or_else(|| " + ErrorStruct + "::MethodUnimplemented(params.method()))?;") + "\n"
        + (Spaces(indent) + "let call = Call" + " {\n" + LinesText(indent + IndentWidth, HandleCallFields(r)) + (Spaces(indent) + ("}" + ";")) + "\n")
        + IndentLine(indent, "slot(call)") + "\n"
  {
    ErrorSingleLine();
    AtomSingleLine();
    SideClientSingle(r.side);
    HandleLinesSingle(AtomTrait, ErrorStruct, SideClient(r.side));
    FiveParts(indent, "use " + AtomTrait + ";", "let slot = self.slots.get(params.method())",
      ".ok_or_else(|| " + ErrorStruct + "::MethodUnimplemented(params.method()))?;", "let call = Call", ";",
      HandleCallFields(r), "slot(call)");
  }

  lemma AtomSingleLine()
    ensures '\n' !in AtomTrait
  {
  }

  lemma HandleLinesSingle(atom: string, e: string, client: string)
    requires '\n' !in atom && '\n' !in e && '\n' !in client
    ensures '\n' !in "use " + atom + ";"
    ensures '\n' !in ".ok_or_else(|| " + e + "::MethodUnimplemented(params.method()))?;"
    ensures var ls := ["state: self.state.clone(),", "client: " + client + " { caller },", "params,"];
      forall k :: 0 <= k < |ls| ==> '\n' !in ls[k]
  {
    UseSingle(atom);
    MissingSingle(e);
    CallFieldsSingleLine(client);
  }

  lemma UseSingle(atom: string)
    requires '\n' !in atom
    ensures '\n' !in "use " + atom + ";"
  {
  }

  lemma MissingSingle(e: string)
    requires '\n' !in e
    ensures '\n' !in ".ok_or_else(|| " + e + "::MethodUnimplemented(params.method()))?;"
  {
  }

  lemma CallFieldsSingleLine(client: string)
    requires '\n' !in client
    ensures var ls := ["state: self.state.clone(),", "client: " + client + " { caller },", "params,"];
      forall k :: 0 <= k < |ls| ==> '\n' !in ls[k]
  {
  }

  /** Two lines, a deeper line, a terminated block of lines, a line. */
  lemma FiveParts(indent: nat, a: string, b: string, c: string, h: string, term: string, ls: seq<string>, last: string)
    requires '\n' !in a && '\n' !in b && '\n' !in c && h != "" && '\n' !in h && '\n' !in term && '\n' !in last
    requires forall k :: 0 <= k < |ls| ==> '\n' !in ls[k]
    ensures RenderOut(indent, NeedIndent, LineCmds(a) + LineCmds(b) + [Nested(LineCmds(c))]
        + ([Text(h)] + TermBlockCmds(term, LinesCmds(ls))) + LineCmds(last))
      == IndentLine(indent, a) + "\n" + IndentLine(indent, b) + "\n" + IndentLine(indent + IndentWidth, c) + "\n"
        + (Spaces(indent) + h + " {\n" + LinesText(indent + IndentWidth, ls) + (Spaces(indent) + ("}" + term)) + "\n")
        + IndentLine(indent, last) + "\n"
  {
    var head := LineCmds(a) + LineCmds(b) + [Nested(LineCmds(c))];
    var p4, p5 := [Text(h)] + TermBlockCmds(term, LinesCmds(ls)), LineCmds(last);
    ThreeLines(indent, a, b, c);
    HeadTermBlock(indent, h, term, LinesCmds(ls));
    LinesLayout(indent + IndentWidth, ls);
    OneLine(indent, last);
    AppendAtLineStart(indent, head, p4);
    AppendAtLineStart(indent, head + p4, p5);
  }

  lemma ThreeLines(indent: nat, a: string, b: string, c: string)
    requires '\n' !in a && '\n' !in b && '\n' !in c
    ensures RenderOut(indent, NeedIndent, LineCmds(a) + LineCmds(b) + [Nested(LineCmds(c))])
      == IndentLine(indent, a) + "\n" + IndentLine(indent, b) + "\n" + IndentLine(indent + IndentWidth, c) + "\n"
    ensures RenderEnd(NeedIndent, LineCmds(a) + LineCmds(b) + [Nested(LineCmds(c))]) == NeedIndent
  {
    var x, z := IndentLine(indent, a) + "\n", IndentLine(indent + IndentWidth, c) + "\n";
    OneLine(indent, a);
    OneLine(indent, b);
    NestedAlone(indent, LineCmds(c));
    OneLine(indent + IndentWidth, c);
    Join3(indent, LineCmds(a), LineCmds(b), [Nested(LineCmds(c))], x, IndentLine(indent, b) + "\n", z);
    AppendAssoc(x, IndentLine(indent, b), "\n");
  }

  /** The lines of the registered closure, built from short pieces so that
      each piece's characters are cheap to inspect. */
  const InsertHead := "self.slots.insert(" + "R::method(), " + "Box::new(move |call|"
  const DowncastLine := "let call = " + "call.downcast(" + "R::downcast_params)?;"
  const UpcastLine := "f(call)" + ".map(|r| r.upcast_results())"
  const RegisterLines: seq<string> := [DowncastLine, UpcastLine]

  /** The registering `handle`'s body at any indentation: the insertion
      under `R::method()` opens a block, the downcast and the upcast sit
      one level deeper, and "}));" closes it. */
  lemma RegisterBodyLayout(indent: nat)
    ensures RenderOut(indent, NeedIndent, RegisterBody())
      == Spaces(indent) + InsertHead + " {\n"
        + LinesText(indent + IndentWidth, RegisterLines) + (Spaces(indent) + ("}" + "));")) + "\n"
  {
    RegisterSingle();
    TermBlockOfLines(indent, InsertHead, "));", RegisterLines);
  }

  lemma RegisterSingle()
    ensures forall k :: 0 <= k < |RegisterLines| ==> '\n' !in RegisterLines[k]
    ensures '\n' !in InsertHead && '\n' !in "));"
  {
  }

  lemma TermBlockOfLines(indent: nat, h: string, term: string, ls: seq<string>)
    requires h != "" && '\n' !in h && '\n' !in term
    requires forall k :: 0 <= k < |ls| ==> '\n' !in ls[k]
    ensures RenderOut(indent, NeedIndent, [Text(h)] + TermBlockCmds(term, LinesCmds(ls)))
      == Spaces(indent) + h + " {\n" + LinesText(indent + IndentWidth, ls) + (Spaces(indent) + ("}" + term)) + "\n"
  {
    HeadTermBlock(indent, h, term, LinesCmds(ls));
    LinesLayout(indent + IndentWidth, ls);
  }
}
