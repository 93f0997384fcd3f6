/** The newer generation's Rust `Generator` (src/codegen/rust/mod.rs): the
    prelude every generated file opens with, the file of one workspace
    member (protocol, schema symbols, client and server modules), and the
    workspace's `mod.rs` listing every member.

    The type mapping of this file is `RustTypes.FlatRustType`, shared with
    the older generator.  The newer `Scope` writer behaves like the older
    one and is modelled by `LavishOutput`.  The protocol, the symbols and
    the client are the emitters of `RustProtocol`, `RustSymbols` and
    `RustClient`; what they take beyond the body is carried by the
    `RustProtocol.Protocol` value and the `trace` parameter. */
module NewGen {
  import opened Common
  import opened NewAst
  import opened Anchored
  import opened LavishOutput
  import opened Layout
  import LavishAst
  import LavishGen
  import RustProtocol
  import RustSymbols
  import RustClient

  /** `write_prelude`: two comment lines, a blank line, two attribute lines,
      a blank line. */
  const Prelude: seq<string> := [
    "// This file is generated by lavish: DO NOT EDIT",
    "// https://github.com/fasterthanlime/lavish",
    "",
    "#![cfg_attr(rustfmt, rustfmt_skip)]",
    "#![allow(clippy::all, unknown_lints, unused, non_snake_case)]",
    ""]

  /** A module block at column 0: "pub mod <name> {", the inner text one
      level in, "}". */
  function ModBlockCmds(name: string, inner: string): seq<Cmd>
  {
    [Text("pub mod " + name)] + BlockCmds([Text(inner)])
  }

  function ModBlockText(name: string, inner: string): string
  {
    "pub mod " + name + " {\n" + Out(IndentWidth, NeedIndent, inner) + "}\n"
  }

  lemma ModBlockLayout(name: string, inner: string)
    ensures RenderOut(0, NeedIndent, ModBlockCmds(name, inner)) == ModBlockText(name, inner)
  {
    FlatHeadBlock("pub mod " + name, [Text(inner)]);
    OneText(IndentWidth, NeedIndent, inner);
  }

  /** What the member's file holds after the prelude, given the texts of
      the protocol, the schema's symbols and the client: the protocol and a
      blank line, the schema module, a blank line, the client module, a
      blank line, the server module.  Both side modules hold the client:
      its `Display` does not read the side. */
  function SectionsCmds(protocol: string, symbols: string, client: string): seq<Cmd>
  {
    [Text(protocol), Text("\n")]
      + ModBlockCmds("schema", symbols) + [Text("\n")]
      + ModBlockCmds("client", client) + [Text("\n")]
      + ModBlockCmds("server", client)
  }

  /** `emit`: the prelude, then the sections of the member's body. */
  function EmitCmds(p: RustProtocol.Protocol, trace: Stack -> string): seq<Cmd>
  {
    var st := p.body.stack;
    FileCmds(SectionsCmds(RustProtocol.ProtocolText(p), RustSymbols.SymbolsText(st, p.body.inner, trace), RustClient.ClientText(st)))
  }

  function FileCmds(sections: seq<Cmd>): seq<Cmd>
  {
    LinesCmds(Prelude) + sections
  }

  /** The sections come out in the order `emit` writes them, each at
      column 0, with the schema, client and server modules one level in. */
  lemma SectionsLayout(protocol: string, symbols: string, client: string)
    ensures RenderOut(0, NeedIndent, SectionsCmds(protocol, symbols, client))
      == (protocol + "\n") + (ModBlockText("schema", symbols) + "\n") + (ModBlockText("client", client) + "\n") + ModBlockText("server", client)
  {
    var a := [Text(protocol), Text("\n")];
    var b := ModBlockCmds("schema", symbols) + [Text("\n")];
    var c := ModBlockCmds("client", client) + [Text("\n")];
    var d := ModBlockCmds("server", client);
    assert SectionsCmds(protocol, symbols, client) == a + b + c + d;
    FlatAppend(a + b + c, d);
    FlatAppend3(a, b, c);
    TwoTexts(0, NeedIndent, protocol, "\n");
    OutFlat(NeedIndent, protocol + "\n");
    BlockThenBlank("schema", symbols);
    BlockThenBlank("client", client);
    ModBlockLayout("server", client);
  }

  lemma BlockThenBlank(name: string, inner: string)
    ensures RenderOut(0, NeedIndent, ModBlockCmds(name, inner) + [Text("\n")]) == ModBlockText(name, inner) + "\n"
  {
    FlatAppend(ModBlockCmds(name, inner), [Text("\n")]);
    ModBlockLayout(name, inner);
    OneText(0, NeedIndent, "\n");
    OutFlat(NeedIndent, "\n");
  }

  /** A member's file is the prelude, line for line, then the sections. */
  lemma FileLayout(sections: seq<Cmd>)
    ensures RenderOut(0, NeedIndent, FileCmds(sections)) == LinesText(0, Prelude) + RenderOut(0, NeedIndent, sections)
  {
    FlatAppend(LinesCmds(Prelude), sections);
    FlatLines(Prelude);
  }

  /** The anchored body `emit` hands to every section: the schema's body at
      the bottom of a fresh stack. */
  function SchemaBody(member: WorkspaceMember): (r: Anchored<NamespaceBody>)
    requires member.schema.Some?
    ensures r.stack == NewStack() && r.inner == member.schema.value.body
  {
    Anchor(NewStack(), member.schema.value.body)
  }

  /** Where `emit` writes a member: `<dir>/<name>/mod.rs`. */
  function OutputPath(ws: Workspace, member: WorkspaceMember): (r: LavishAst.Path)
    ensures |r| == |ws.dir| + 2 && r[..|ws.dir|] == ws.dir && r[|ws.dir|] == member.name && r[|ws.dir| + 1] == "mod.rs"
  {
    ws.dir + [member.name, "mod.rs"]
  }

  /** Where `emit_workspace` writes the list of members: `<dir>/mod.rs`. */
  function WorkspaceModPath(ws: Workspace): (r: LavishAst.Path)
    ensures |r| == |ws.dir| + 1 && r[..|ws.dir|] == ws.dir && r[|ws.dir|] == "mod.rs"
  {
    ws.dir + ["mod.rs"]
  }

  /** The workspace's `mod.rs` never lands on a member's file, and members
      with different names land in different files. */
  lemma PathsDistinct(ws: Workspace, m1: WorkspaceMember, m2: WorkspaceMember)
    ensures WorkspaceModPath(ws) != OutputPath(ws, m1)
    ensures m1.name != m2.name ==> OutputPath(ws, m1) != OutputPath(ws, m2)
  {
    if m1.name != m2.name {
      assert OutputPath(ws, m1)[|ws.dir|] != OutputPath(ws, m2)[|ws.dir|];
    }
  }

  // `emit_workspace`

  function MemberNames(ws: Workspace, order: seq<string>): (r: seq<string>)
    requires forall k :: 0 <= k < |order| ==> order[k] in ws.members
    ensures |r| == |order| && forall k :: 0 <= k < |order| ==> r[k] == ws.members[order[k]].name
  {
    if order == [] then [] else MemberNames(ws, order[..|order| - 1]) + [ws.members[order[|order| - 1]].name]
  }

  /** The workspace's `mod.rs`: the prelude, then "pub mod <name>;" per
      member.  `order` is the map's iteration order, which the source leaves
      to the hash map. */
  function WorkspaceModCmds(ws: Workspace, order: seq<string>): seq<Cmd>
    requires forall k :: 0 <= k < |order| ==> order[k] in ws.members
  {
    LinesCmds(Prelude + LavishGen.ModLines(MemberNames(ws, order)))
  }

  /** The workspace's `mod.rs` is the prelude followed by one module line
      per member, in iteration order, and a member listed in the order gets
      its line. */
  lemma WorkspaceModText(ws: Workspace, order: seq<string>)
    requires forall k :: 0 <= k < |order| ==> order[k] in ws.members
    ensures RenderOut(0, NeedIndent, WorkspaceModCmds(ws, order))
      == LinesText(0, Prelude) + LinesText(0, LavishGen.ModLines(MemberNames(ws, order)))
    ensures forall k :: 0 <= k < |order| ==> "pub mod " + ws.members[order[k]].name + ";" in LavishGen.ModLines(MemberNames(ws, order))
  {
    var ls := LavishGen.ModLines(MemberNames(ws, order));
    FlatLines(Prelude + ls);
    LinesAppend(0, Prelude, ls);
    forall k | 0 <= k < |order|
      ensures "pub mod " + ws.members[order[k]].name + ";" in ls
    {
      assert ls[k] == "pub mod " + ws.members[order[k]].name + ";";
    }
  }
}
