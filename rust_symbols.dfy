/** `Symbols` (src/codegen/rust/ir/symbols.rs): the `schema` module's tree
    of nested `pub mod` blocks, one per namespace, each holding the symbols
    of that namespace's body.  `Stack::trace`, which the first line prints,
    is not part of this model and is a parameter. */
module RustSymbols {
  import opened Common
  import opened NewAst
  import opened Anchored
  import opened LavishOutput
  import opened Layout

  /** What `Display for Symbols` writes: the trace line, then one module
      block per direct child namespace, in declaration order, whose body is
      the child's own `Symbols` under the stack pushed by that namespace. */
  function SymbolsCmds(st: Stack, b: NamespaceBody, trace: Stack -> string): seq<Cmd>
    decreases b, 1
  {
    LineCmds("// trace = " + trace(st)) + ModsCmds(st, b.namespaces, trace)
  }

  function ModsCmds(st: Stack, nss: seq<NamespaceDecl>, trace: Stack -> string): seq<Cmd>
    decreases nss, 0
  {
    if nss == [] then []
    else
      var child := SymbolsText(Push(st, NamespaceFrame(nss[0])), nss[0].body, trace);
      [Text("pub mod " + nss[0].name.text)] + BlockCmds([Text(child)]) + ModsCmds(st, nss[1..], trace)
  }

  /** The text of a `Symbols`, rendered by a fresh scope. */
  function SymbolsText(st: Stack, b: NamespaceBody, trace: Stack -> string): string
    decreases b, 2
  {
    RenderOut(0, NeedIndent, SymbolsCmds(st, b, trace))
  }

  /** One module block: its head, its child's text four columns in (every
      non-empty line of it indented, `LavishOutput.OutIndentsLines`), "}". */
  function ModText(st: Stack, ns: NamespaceDecl, trace: Stack -> string): string
  {
    "pub mod " + ns.name.text + " {\n" + Out(IndentWidth, NeedIndent, SymbolsText(Push(st, NamespaceFrame(ns)), ns.body, trace)) + "}\n"
  }

  function ModsText(st: Stack, nss: seq<NamespaceDecl>, trace: Stack -> string): string
  {
    if nss == [] then "" else ModText(st, nss[0], trace) + ModsText(st, nss[1..], trace)
  }

  lemma {:induction false} ModsLayout(st: Stack, nss: seq<NamespaceDecl>, trace: Stack -> string)
    ensures RenderOut(0, NeedIndent, ModsCmds(st, nss, trace)) == ModsText(st, nss, trace)
  {
    if nss != [] {
      var child := SymbolsText(Push(st, NamespaceFrame(nss[0])), nss[0].body, trace);
      var head := [Text("pub mod " + nss[0].name.text)] + BlockCmds([Text(child)]);
      FlatAppend(head, ModsCmds(st, nss[1..], trace));
      FlatHeadBlock("pub mod " + nss[0].name.text, [Text(child)]);
      OneText(IndentWidth, NeedIndent, child);
      ModsLayout(st, nss[1..], trace);
    }
  }

  /** The first line is the trace; after it come the module blocks of the
      direct children, one after another, in order. */
  lemma SymbolsLayout(st: Stack, b: NamespaceBody, trace: Stack -> string)
    ensures SymbolsText(st, b, trace) == "// trace = " + trace(st) + "\n" + ModsText(st, b.namespaces, trace)
  {
    FlatAppend(LineCmds("// trace = " + trace(st)), ModsCmds(st, b.namespaces, trace));
    LineEnds(0, NeedIndent, "// trace = " + trace(st));
    OutFlat(NeedIndent, "// trace = " + trace(st) + "\n");
    ModsLayout(st, b.namespaces, trace);
  }

  /** Only namespaces are emitted: a body without child namespaces is the
      trace line alone, whatever functions, structs and enums it holds. */
  lemma SymbolsLeaf(st: Stack, b: NamespaceBody, trace: Stack -> string)
    requires b.namespaces == []
    ensures SymbolsText(st, b, trace) == "// trace = " + trace(st) + "\n"
  {
    SymbolsLayout(st, b, trace);
  }
}
