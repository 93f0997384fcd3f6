/** `write_pair` (src/codegen/rust/ir/pair.rs): the `client` and `server`
    modules of a protocol namespace.  Each module sits one synthetic frame
    below the namespace; it holds the client that calls the other side and
    the router that dispatches its own side's calls.

    The client's side is set in the source but its `Display` never reads
    it, so `RustClient.ClientCmds` takes the stack alone.  The stack's
    `quadruplet` is not part of this model and is a parameter. */
module RustPair {
  import opened Common
  import opened NewAst
  import opened Anchored
  import opened LavishOutput
  import opened Layout
  import opened RustPaths
  import opened RustClient
  import opened RustRouter

  /** The stack of the module named `name`: the namespace's stack with one
      synthetic frame of that name pushed. */
  function ModuleStack(body: Anchored<NamespaceBody>, name: string): Stack
  {
    Push(body.stack, SyntheticFrame(name))
  }

  /** One side module: "pub mod <name>", a block holding the client and the
      router of `side`, then a blank line. */
  function ModuleCmds(name: string, side: Side, body: Anchored<NamespaceBody>, quadruplet: Stack -> string): seq<Cmd>
  {
    var st := ModuleStack(body, name);
    [Text("pub mod " + name)]
      + BlockCmds([Text(ClientText(st)), Text(RouterText(Router(side, Anchor(st, body.inner)), quadruplet(st)))])
      + [Text("\n")]
  }

  /** The module named after a side holds that side's router. */
  function SideModuleCmds(side: Side, body: Anchored<NamespaceBody>, quadruplet: Stack -> string): seq<Cmd>
  {
    ModuleCmds(SideName(side), side, body, quadruplet)
  }

  /** `write_pair`: the client module, then the server module. */
  function PairCmds(body: Anchored<NamespaceBody>, quadruplet: Stack -> string): seq<Cmd>
  {
    SideModuleCmds(Client, body, quadruplet) + SideModuleCmds(Server, body, quadruplet)
  }

  function PairText(body: Anchored<NamespaceBody>, quadruplet: Stack -> string): string
  {
    RenderOut(0, NeedIndent, PairCmds(body, quadruplet))
  }

  /** The text of one side module, as written. */
  function ModuleText(side: Side, body: Anchored<NamespaceBody>, quadruplet: Stack -> string): string
  {
    var st := ModuleStack(body, SideName(side));
    "pub mod " + SideName(side) + " {\n"
      + Out(IndentWidth, NeedIndent, ClientText(st) + RouterText(Router(side, Anchor(st, body.inner)), quadruplet(st)))
      + "}\n" + "\n"
  }

  /** A module block whose body is two texts, then a blank line. */
  lemma HeadTwoTextsBlank(h: string, a: string, b: string)
    ensures RenderOut(0, NeedIndent, [Text(h)] + BlockCmds([Text(a), Text(b)]) + [Text("\n")])
      == h + " {\n" + Out(IndentWidth, NeedIndent, a + b) + "}\n" + "\n"
  {
    FlatAppend([Text(h)] + BlockCmds([Text(a), Text(b)]), [Text("\n")]);
    FlatHeadBlock(h, [Text(a), Text(b)]);
    TwoTexts(IndentWidth, NeedIndent, a, b);
    OneText(0, NeedIndent, "\n");
    OutFlat(NeedIndent, "\n");
  }

  /** Each side module is its head, the client followed by the router one
      level deeper, "}" and a blank line. */
  lemma ModuleLayout(side: Side, body: Anchored<NamespaceBody>, quadruplet: Stack -> string)
    ensures RenderOut(0, NeedIndent, SideModuleCmds(side, body, quadruplet)) == ModuleText(side, body, quadruplet)
  {
    var st := ModuleStack(body, SideName(side));
    HeadTwoTextsBlank("pub mod " + SideName(side), ClientText(st), RouterText(Router(side, Anchor(st, body.inner)), quadruplet(st)));
  }

  /** The pair is the client module's text followed by the server module's:
      the client module comes first. */
  lemma PairLayout(body: Anchored<NamespaceBody>, quadruplet: Stack -> string)
    ensures PairText(body, quadruplet) == ModuleText(Client, body, quadruplet) + ModuleText(Server, body, quadruplet)
  {
    FlatAppend(SideModuleCmds(Client, body, quadruplet), SideModuleCmds(Server, body, quadruplet));
    ModuleLayout(Client, body, quadruplet);
    ModuleLayout(Server, body, quadruplet);
  }

  /** Inside either module, every path to the protocol climbs one module
      more than it would at the namespace, and the stack's innermost frame
      names the module. */
  lemma ModuleDepth(side: Side, body: Anchored<NamespaceBody>)
    ensures var st := ModuleStack(body, SideName(side));
      Root(st) == Root(body.stack) + Up
      && FrameName(st.frames[|st.frames| - 1]) == SideName(side)
  {
    RootPush(body.stack, SyntheticFrame(SideName(side)));
  }
}
