/** `Client` (src/codegen/rust/ir/client.rs): the generated `Client`
    struct, holding a `Caller` of the protocol, with its `new` constructor
    and its generic `call`. */
module RustClient {
  import opened Common
  import opened NewAst
  import opened Anchored
  import opened LavishOutput
  import opened Layout
  import opened RustPaths
  import opened RustLang

  /** `pub fn new(caller: Caller) -> Self { Self { caller } }` */
  function ConstructorFn(st: Stack): FnBuilder
  {
    FnBody(FnReturns(FnParam(FnKwPub(NewFn("new")), "caller: " + Caller(st)), "Self"), LineCmds("Self { caller }"))
  }

  /** The arguments `call` passes on: the parameters upcast, and the
      function that downcasts the results. */
  const CallArgs: seq<string> := ["p.upcast_params(),", "P::downcast_results,"]

  /** The body of `call`: the arguments one level deeper inside the
      parentheses. */
  function CallBody(): seq<Cmd>
  {
    LineCmds("self.caller.call(") + [Nested(LinesCmds(CallArgs))] + LineCmds(")")
  }

  /** `call<P: Callable<R>, R>(&self, p: P) -> Result<R, Error>` as built. */
  function CallFn(st: Stack): FnBuilder
  {
    var f := FnTypeParam(FnTypeParam(FnKwPub(NewFn("call")), "P", Some(Callable(st) + "<R>")), "R", None);
    FnBody(FnReturns(FnParam(FnSelfParam(f, "&self"), "p: P"), "Result<R, " + ErrorStruct + ">"), CallBody())
  }

  /** `define_client`, the whole of `Display for Client`: the derive line,
      the struct, a blank line, and the `impl` block. */
  function ClientCmds(st: Stack): seq<Cmd>
  {
    StructImplCmds("#[derive(Clone)]", "pub struct Client", "caller: " + Caller(st) + ",", "impl Client",
      FnText(ConstructorFn(st)), FnText(CallFn(st)))
  }

  /** An attribute line, a struct with one field, a blank line, and an
      `impl` block of two written texts. */
  function StructImplCmds(attr: string, stru: string, field: string, impl: string, a: string, b: string): seq<Cmd>
  {
    LineCmds(attr)
      + ([Text(stru)] + BlockCmds(LineCmds(field)))
      + [Text("\n")]
      + ([Text(impl)] + BlockCmds([Text(a), Text(b)]))
  }

  function ClientText(st: Stack): string
  {
    RenderOut(0, NeedIndent, ClientCmds(st))
  }

  lemma CallerNoNewline(st: Stack)
    ensures '\n' !in Caller(st)
    ensures '\n' !in "caller: " + Caller(st) + ","
  {
    ProtocolItemSingleLine(st, "Caller");
  }

  /** `new` is public, takes the caller and returns `Self`. */
  lemma ConstructorSignature(st: Stack)
    ensures FnSignature(ConstructorFn(st)) == "pub fn new(caller: " + Caller(st) + ") -> Self"
  {
    var f, x := ConstructorFn(st), Caller(st);
    assert ArgItems(f) == ["caller: " + x];
    assert FnSignature(f) == "pub " + "fn " + "new" + ("(" + ("caller: " + x) + ")") + (" -> " + "Self");
    ConstructorWords(x);
  }

  lemma ConstructorWords(x: string)
    ensures "pub " + "fn " + "new" + ("(" + ("caller: " + x) + ")") + (" -> " + "Self") == "pub fn new(caller: " + x + ") -> Self"
  {
    assert "pub " + "fn " + "new" + "(" + "caller: " == "pub fn new(caller: ";
    assert ")" + (" -> " + "Self") == ") -> Self";
  }

  /** The whole constructor: its body is the one line `Self { caller }`. */
  lemma ConstructorText(st: Stack)
    ensures FnText(ConstructorFn(st))
      == "pub fn new(caller: " + Caller(st) + ") -> Self" + " {\n" + (IndentLine(IndentWidth, "Self { caller }") + "\n") + "}\n"
  {
    OneLineBody(ConstructorFn(st), "Self { caller }");
    ConstructorSignature(st);
  }

  /** A function whose body is one line. */
  lemma OneLineBody(f: FnBuilder, line: string)
    requires f.body == Some(LineCmds(line)) && '\n' !in line
    ensures FnText(f) == FnSignature(f) + " {\n" + (IndentLine(IndentWidth, line) + "\n") + "}\n"
  {
    FnLayout(f);
    FreshLine(IndentWidth, line);
    var m := IndentLine(IndentWidth, line) + "\n";
    assert RenderOut(IndentWidth, NeedIndent, f.body.value) == m;
    AppendAssoc(FnSignature(f), " {\n" + m, "}\n");
    AppendAssoc(FnSignature(f), " {\n", m);
  }

  lemma Join2(a: string, b: string, sep: string)
    ensures Join([a, b], sep) == a + sep + b
  {
    assert [a, b][1..] == [b];
  }

  /** `call` is generic in the parameters `P` and results `R`; the bound
      `P: Callable<R>` the builder holds is not written, since `_Fn` renders
      type parameters by name only. */
  lemma CallSignature(st: Stack)
    ensures CallFn(st).typeParams == [TypeParam("P", Some(Callable(st) + "<R>")), TypeParam("R", None)]
    ensures FnSignature(CallFn(st)) == "pub " + "fn " + "call" + "<P, R>" + "(&self, p: P)" + (" -> " + ("Result<R, " + ErrorStruct + ">"))
  {
    var f := CallFn(st);
    assert ParamNames(f.typeParams) == ["P", "R"];
    assert ArgItems(f) == ["&self", "p: P"];
    Join2("P", "R", ", ");
    Join2("&self", "p: P", ", ");
    assert FnSignature(f) == "pub " + "fn " + "call" + ("<" + ("P" + ", " + "R") + ">") + ("(" + ("&self" + ", " + "p: P") + ")")
      + (" -> " + ("Result<R, " + ErrorStruct + ">"));
    CallWords();
  }

  lemma CallWords()
    ensures "<" + ("P" + ", " + "R") + ">" == "<P, R>"
    ensures "(" + ("&self" + ", " + "p: P") + ")" == "(&self, p: P)"
  {
  }

  /** The body of `call` at any indentation: the opening line, the
      arguments one level deeper, the closing parenthesis back in line. */
  lemma CallBodyLayout(indent: nat)
    ensures RenderOut(indent, NeedIndent, CallBody())
      == IndentLine(indent, "self.caller.call(") + "\n" + LinesText(indent + IndentWidth, CallArgs) + IndentLine(indent, ")") + "\n"
  {
    CallBodyOuter(indent);
    CallArgsLayout(indent + IndentWidth);
  }

  lemma CallBodyOuter(indent: nat)
    ensures RenderOut(indent, NeedIndent, CallBody())
      == IndentLine(indent, "self.caller.call(") + "\n" + RenderOut(indent + IndentWidth, NeedIndent, LinesCmds(CallArgs)) + IndentLine(indent, ")") + "\n"
  {
    LinesAround(indent, "self.caller.call(", LinesCmds(CallArgs), ")");
  }

  lemma CallArgsLayout(indent: nat)
    ensures RenderOut(indent, NeedIndent, LinesCmds(CallArgs)) == LinesText(indent, CallArgs)
  {
    LinesLayout(indent, CallArgs);
  }

  /** The emitted client: "#[derive(Clone)]", the struct with its one
      `caller` field, a blank line, then the `impl` block holding `new`
      and `call`, written one level deeper. */
  lemma ClientLayout(st: Stack)
    ensures ClientText(st)
      == "#[derive(Clone)]" + "\n"
        + ("pub struct Client" + " {\n" + (IndentLine(IndentWidth, "caller: " + Caller(st) + ",") + "\n") + "}\n")
        + "\n"
        + ("impl Client" + " {\n" + Out(IndentWidth, NeedIndent, FnText(ConstructorFn(st)) + FnText(CallFn(st))) + "}\n")
  {
    CallerNoNewline(st);
    DeriveNoNewline();
    AttrStructImpl("#[derive(Clone)]", "pub struct Client", "caller: " + Caller(st) + ",", "impl Client",
      FnText(ConstructorFn(st)), FnText(CallFn(st)));
  }

  lemma DeriveNoNewline()
    ensures '\n' !in "#[derive(Clone)]"
  {
  }

  lemma AttrStructImpl(attr: string, stru: string, field: string, impl: string, a: string, b: string)
    requires '\n' !in attr && '\n' !in field
    ensures RenderOut(0, NeedIndent, StructImplCmds(attr, stru, field, impl, a, b))
      == attr + "\n" + (stru + " {\n" + (IndentLine(IndentWidth, field) + "\n") + "}\n") + "\n"
        + (impl + " {\n" + Out(IndentWidth, NeedIndent, a + b) + "}\n")
  {
    var head := LineCmds(attr) + ([Text(stru)] + BlockCmds(LineCmds(field)));
    FlatAppend3(head, [Text("\n")], [Text(impl)] + BlockCmds([Text(a), Text(b)]));
    FlatAppend(LineCmds(attr), [Text(stru)] + BlockCmds(LineCmds(field)));
    LineEnds(0, NeedIndent, attr);
    OutFlat(NeedIndent, attr + "\n");
    FlatHeadBlock(stru, LineCmds(field));
    FreshLine(IndentWidth, field);
    OneText(0, NeedIndent, "\n");
    OutFlat(NeedIndent, "\n");
    FlatHeadBlock(impl, [Text(a), Text(b)]);
    TwoTexts(IndentWidth, NeedIndent, a, b);
  }
}
