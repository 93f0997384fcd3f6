/** The handler emitter (src/codegen/rust/ir/handler.rs): for one side of a
    protocol, the functions that side handles and the ones it calls, and
    the `Call`, slot-type and `Handler` declarations written for it.
    `walk_client_funs`, which lists the functions, and the anchored
    functions' `qualified_name` are not part of this model; the walk's
    result and the naming are parameters. */
module RustHandler {
  import opened Common
  import opened NewAst
  import opened Anchored
  import opened LavishOutput
  import opened Layout
  import opened RustPaths

  /** The emitter: the side it is generated for, and the namespace body it
      walks, anchored in its stack. */
  datatype Handler = Handler(side: Side, body: Anchored<NamespaceBody>)

  /** `for_each_handled_fun`: the functions of this side. */
  function Handled(h: Handler, funs: seq<Anchored<FunctionDecl>>): (r: seq<Anchored<FunctionDecl>>)
    ensures forall x :: x in r <==> x in funs && x.inner.side == h.side
  {
    FilterFunSide(h.side, funs)
  }

  /** `for_each_called_fun`: the functions of the other side. */
  function Called(h: Handler, funs: seq<Anchored<FunctionDecl>>): (r: seq<Anchored<FunctionDecl>>)
    ensures forall x :: x in r <==> x in funs && x.inner.side == Other(h.side)
  {
    FilterFunSide(Other(h.side), funs)
  }

  /** Every function is either handled or called, never both, and the two
      lists together are as long as the walk. */
  lemma HandledCalledSplit(h: Handler, funs: seq<Anchored<FunctionDecl>>)
    ensures forall x :: x in funs ==> (x in Handled(h, funs) <==> x !in Called(h, funs))
    ensures |Handled(h, funs)| + |Called(h, funs)| == |funs|
  {
    FilterSidesPartition(funs);
    assert forall x :: x in funs ==> x.inner.side == h.side || x.inner.side == Other(h.side);
  }

  /** One line per function, in order. */
  function FunLines(fs: seq<Anchored<FunctionDecl>>, line: Anchored<FunctionDecl> -> string): (r: seq<string>)
    ensures |r| == |fs| && forall k :: 0 <= k < |fs| ==> r[k] == line(fs[k])
  {
    if fs == [] then [] else FunLines(fs[..|fs| - 1], line) + [line(fs[|fs| - 1])]
  }

  ghost predicate SingleLineNames(qname: Anchored<FunctionDecl> -> string)
  {
    forall x :: '\n' !in qname(x)
  }

  /** The lines of the `Client` struct: one unit field per called function,
      then a to-do marker. */
  function ClientFields(h: Handler, funs: seq<Anchored<FunctionDecl>>, qname: Anchored<FunctionDecl> -> string): seq<string>
  {
    FunLines(Called(h, funs), x => qname(x) + ": (),") + ["// TODO"]
  }

  /** `define_client` */
  function ClientStructCmds(h: Handler, funs: seq<Anchored<FunctionDecl>>, qname: Anchored<FunctionDecl> -> string): seq<Cmd>
  {
    [Text("pub struct Client")] + BlockCmds(LinesCmds(ClientFields(h, funs, qname))) + [Text("\n")]
  }

  /** The lines of the `Handler` struct: the state, then one slot per
      handled function. */
  function HandlerFields(h: Handler, funs: seq<Anchored<FunctionDecl>>, qname: Anchored<FunctionDecl> -> string): seq<string>
  {
    ["state: std::sync::Arc<T>,"] + FunLines(Handled(h, funs), x => "on_" + qname(x) + ": Slot<T>,")
  }

  /** `define_handler` */
  function HandlerStructCmds(h: Handler, funs: seq<Anchored<FunctionDecl>>, qname: Anchored<FunctionDecl> -> string): seq<Cmd>
  {
    [Text("pub struct Handler<T>")] + BlockCmds(LinesCmds(HandlerFields(h, funs, qname))) + [Text("\n")]
  }

  const CallFields: seq<string> := ["pub state: " + ArcStruct + "<T>,", "pub client: Client,", "pub params: PP,"]

  /** `define_call` */
  function CallStructCmds(): seq<Cmd>
  {
    [Text("pub struct Call<T, PP>")] + BlockCmds(LinesCmds(CallFields)) + [Text("\n")]
  }

  /** The three slot aliases, naming the protocol of the handler's stack. */
  function SlotLines(st: Stack): seq<string>
  {
    [ "pub type SlotReturn = Result<" + Results(st) + ", " + ErrorStruct + ">;",
      "pub type SlotFn<T> = Fn(" + ArcStruct + "<T>, Client, " + Params(st) + ") -> SlotReturn + 'static + Send + Sync;",
      "pub type Slot<T> = Option<Box<SlotFn<T>>>;" ]
  }

  /** `define_slot`: each alias is a write and a newline. */
  function SlotCmds(st: Stack): seq<Cmd>
  {
    LinesCmds(SlotLines(st))
  }

  /** `Display`: call, slot, handler; the client struct is not written. */
  function HandlerCmds(h: Handler, funs: seq<Anchored<FunctionDecl>>, qname: Anchored<FunctionDecl> -> string): seq<Cmd>
  {
    CallStructCmds() + SlotCmds(h.body.stack) + HandlerStructCmds(h, funs, qname)
  }

  function HandlerText(h: Handler, funs: seq<Anchored<FunctionDecl>>, qname: Anchored<FunctionDecl> -> string): string
  {
    RenderOut(0, NeedIndent, HandlerCmds(h, funs, qname))
  }

  /** The `Client` struct: a unit field for each called function, in the
      walk's order, then "// TODO", then a blank line. */
  lemma ClientStructLayout(h: Handler, funs: seq<Anchored<FunctionDecl>>, qname: Anchored<FunctionDecl> -> string)
    requires SingleLineNames(qname)
    ensures RenderOut(0, NeedIndent, ClientStructCmds(h, funs, qname))
      == "pub struct Client" + " {\n" + LinesText(IndentWidth, ClientFields(h, funs, qname)) + "}\n" + "\n"
    ensures var fields := ClientFields(h, funs, qname);
      |fields| == |Called(h, funs)| + 1 && fields[|fields| - 1] == "// TODO"
      && forall k :: 0 <= k < |Called(h, funs)| ==> fields[k] == qname(Called(h, funs)[k]) + ": (),"
  {
    var fields := ClientFields(h, funs, qname);
    assert forall k :: 0 <= k < |fields| ==> '\n' !in fields[k];
    HeadLinesBlank("pub struct Client", fields);
  }

  /** The `Handler` struct: the state first, then an `on_` slot for each
      handled function, in the walk's order, then a blank line. */
  lemma HandlerStructLayout(h: Handler, funs: seq<Anchored<FunctionDecl>>, qname: Anchored<FunctionDecl> -> string)
    requires SingleLineNames(qname)
    ensures RenderOut(0, NeedIndent, HandlerStructCmds(h, funs, qname))
      == "pub struct Handler<T>" + " {\n" + LinesText(IndentWidth, HandlerFields(h, funs, qname)) + "}\n" + "\n"
    ensures var fields := HandlerFields(h, funs, qname);
      |fields| == |Handled(h, funs)| + 1 && fields[0] == "state: std::sync::Arc<T>,"
      && forall k :: 0 <= k < |Handled(h, funs)| ==> fields[k + 1] == "on_" + qname(Handled(h, funs)[k]) + ": Slot<T>,"
  {
    var fields := HandlerFields(h, funs, qname);
    assert forall k :: 0 <= k < |fields| ==> '\n' !in fields[k];
    HeadLinesBlank("pub struct Handler<T>", fields);
  }

  /** The `Call` struct: state, client and params, then a blank line. */
  lemma CallStructLayout()
    ensures RenderOut(0, NeedIndent, CallStructCmds())
      == "pub struct Call<T, PP>" + " {\n" + LinesText(IndentWidth, CallFields) + "}\n" + "\n"
  {
    assert forall k :: 0 <= k < |CallFields| ==> '\n' !in CallFields[k];
    HeadLinesBlank("pub struct Call<T, PP>", CallFields);
  }

  /** The slot aliases: one line each, at column 0. */
  lemma SlotLayout(st: Stack)
    ensures RenderOut(0, NeedIndent, SlotCmds(st)) == LinesText(0, SlotLines(st))
  {
    SlotLinesSingle(st);
    FlatLines(SlotLines(st));
  }

  lemma SlotLinesSingle(st: Stack)
    ensures forall k :: 0 <= k < |SlotLines(st)| ==> '\n' !in SlotLines(st)[k]
  {
    ProtocolItemSingleLine(st, "Results");
    ProtocolItemSingleLine(st, "Params");
    ConstsNoNewline();
    SlotReturnSingle(Results(st), ErrorStruct);
    SlotFnSingle(ArcStruct, Params(st));
  }

  lemma ConstsNoNewline()
    ensures '\n' !in ErrorStruct && '\n' !in ArcStruct
  {
  }

  lemma SlotReturnSingle(r: string, e: string)
    requires '\n' !in r && '\n' !in e
    ensures '\n' !in "pub type SlotReturn = Result<" + r + ", " + e + ">;"
  {
  }

  lemma SlotFnSingle(a: string, p: string)
    requires '\n' !in a && '\n' !in p
    ensures '\n' !in "pub type SlotFn<T> = Fn(" + a + "<T>, Client, " + p + ") -> SlotReturn + 'static + Send + Sync;"
  {
    var h, m, t := "pub type SlotFn<T> = Fn(", "<T>, Client, ", ") -> SlotReturn + 'static + Send + Sync;";
    assert '\n' !in h && '\n' !in m && '\n' !in t;
    NotInAppend('\n', h, a);
    NotInAppend('\n', h + a, m);
    NotInAppend('\n', h + a + m, p);
    NotInAppend('\n', h + a + m + p, t);
  }

  /** The handler's text is the `Call` struct, the slot aliases and the
      `Handler` struct, in that order. */
  lemma HandlerLayout(h: Handler, funs: seq<Anchored<FunctionDecl>>, qname: Anchored<FunctionDecl> -> string)
    requires SingleLineNames(qname)
    ensures HandlerText(h, funs, qname)
      == RenderOut(0, NeedIndent, CallStructCmds()) + LinesText(0, SlotLines(h.body.stack))
        + RenderOut(0, NeedIndent, HandlerStructCmds(h, funs, qname))
  {
    FlatAppend3(CallStructCmds(), SlotCmds(h.body.stack), HandlerStructCmds(h, funs, qname));
    SlotLayout(h.body.stack);
  }
}
