/** The path strings of the newer Rust generator: the fixed module paths of
    src/codegen/rust/ir/common.rs, the stack-relative paths of
    src/codegen/rust/ir/ast_ext.rs and src/codegen/rust/prelude.rs, and the
    names derived from an anchored function or struct.

    Generated code lives in nested `pub mod` blocks, one per frame of the
    stack, so a path back to the generated crate's top climbs one `super::`
    per frame.  `heck`'s camel-casing is not modelled and is passed in as a
    function. */
module RustPaths {
  import opened Common
  import opened NewAst
  import opened Anchored

  // src/codegen/rust/ir/common.rs

  const Lavish: string := "::lavish"
  const Chrono: string := Lavish + "::chrono"
  const Collections: string := "::std::collections"
  const Sync: string := "::std::sync"
  const ErasedSerde: string := Lavish + "::erased_serde"
  const Serde: string := Lavish + "::serde"
  const SerdeDerive: string := Lavish + "::serde_derive"

  const SerializeTrait: string := SerdeDerive + "::Serialize"
  const DeserializeTrait: string := SerdeDerive + "::Deserialize"
  const AtomTrait: string := Lavish + "::Atom"

  const DeserializerStruct: string := ErasedSerde + "::Deserializer"
  const ErrorStruct: string := Lavish + "::Error"
  const ArcStruct: string := Sync + "::Arc"
  const HashMapStruct: string := Collections + "::HashMap"

  /** `path` names `item` inside the module `module`. */
  predicate Inside(path: string, parent: string, item: string)
  {
    path == parent + "::" + item
  }

  /** The re-exported crates all sit directly inside `::lavish`. */
  lemma CratesNest()
    ensures Inside(Chrono, Lavish, "chrono") && Inside(ErasedSerde, Lavish, "erased_serde")
    ensures Inside(Serde, Lavish, "serde") && Inside(SerdeDerive, Lavish, "serde_derive")
  {
  }

  /** Every trait and struct path sits directly inside one of the module
      paths. */
  lemma ItemsNest()
    ensures Inside(SerializeTrait, SerdeDerive, "Serialize") && Inside(DeserializeTrait, SerdeDerive, "Deserialize")
    ensures Inside(AtomTrait, Lavish, "Atom") && Inside(ErrorStruct, Lavish, "Error")
    ensures Inside(DeserializerStruct, ErasedSerde, "Deserializer")
    ensures Inside(ArcStruct, Sync, "Arc") && Inside(HashMapStruct, Collections, "HashMap")
  {
  }

  // Climbing out of nested modules.

  const Up: string := "super::"

  predicate StartsUp(p: string)
  {
    |p| >= |Up| && p[..|Up|] == Up
  }

  /** How many modules a relative path climbs, and where it goes from
      there: the reading of a path the generated code relies on. */
  function Ascent(p: string): (r: (nat, string))
    ensures !StartsUp(r.1)
    decreases |p|
  {
    if StartsUp(p) then
      var rest := Ascent(p[|Up|..]);
      (rest.0 + 1, rest.1)
    else (0, p)
  }

  /** `n` times "super::" in front of a path that does not itself climb
      reads back as `n` levels up, then that path. */
  lemma {:induction false} AscentRepeat(n: nat, tail: string)
    requires !StartsUp(tail)
    ensures Ascent(Repeat(Up, n) + tail) == (n, tail)
  {
    if n > 0 {
      var p := Repeat(Up, n) + tail;
      assert p == Up + (Repeat(Up, n - 1) + tail);
      assert p[..|Up|] == Up;
      assert p[|Up|..] == Repeat(Up, n - 1) + tail;
      AscentRepeat(n - 1, tail);
    } else {
      assert Repeat(Up, 0) + tail == tail;
    }
  }

  /** A path whose second character is not 'u' does not climb. */
  lemma NoClimb(head: string, tail: string)
    requires |head| >= 2 && head[1] != 'u'
    ensures !StartsUp(head + tail) && !StartsUp(head)
  {
    assert (head + tail)[1] == head[1];
  }

  // src/codegen/rust/ir/ast_ext.rs: `RustStack`

  /** `root`: one "super::" per frame. */
  function Root(st: Stack): string
  {
    Repeat(Up, |st.frames|)
  }

  function ProtocolPath(st: Stack): string
  {
    Root(st) + "protocol"
  }

  function SchemaPath(st: Stack): string
  {
    Root(st) + "schema"
  }

  function ProtocolItem(st: Stack, item: string): string
  {
    ProtocolPath(st) + "::" + item
  }

  function Caller(st: Stack): string { ProtocolItem(st, "Caller") }
  function Callable(st: Stack): string { ProtocolItem(st, "Callable") }
  function Implementable(st: Stack): string { ProtocolItem(st, "Implementable") }
  function TranslationTables(st: Stack): string { ProtocolItem(st, "TranslationTables") }
  function Slottable(st: Stack): string { ProtocolItem(st, "Slottable") }
  function Params(st: Stack): string { ProtocolItem(st, "Params") }
  function NotificationParams(st: Stack): string { ProtocolItem(st, "NotificationParams") }
  function Results(st: Stack): string { ProtocolItem(st, "Results") }

  /** `SideClient(side)`: one module up, then that side's `Client`,
      whatever the stack. Which module that is depends on the caller's
      side: `write_pair` gives the `client` module's router the client side,
      so there it names the module's own `Client`. */
  function SideClient(side: Side): string
  {
    Up + SideName(side) + "::Client"
  }

  /** `triplet`: the three atom paths, as type arguments. */
  function Triplet(st: Stack): string
  {
    Params(st) + ", " + NotificationParams(st) + ", " + Results(st)
  }

  /** From anywhere in the generated tree the protocol and schema paths climb
      exactly as many modules as the stack has frames, then name the
      top-level `protocol` or `schema` module; every protocol item is found
      in `protocol`. */
  lemma RootLeadsToTop(st: Stack, item: string)
    ensures Ascent(ProtocolPath(st)) == (|st.frames|, "protocol")
    ensures Ascent(SchemaPath(st)) == (|st.frames|, "schema")
    ensures Ascent(ProtocolItem(st, item)) == (|st.frames|, "protocol::" + item)
  {
    NoClimb("protocol", "::" + item);
    NoClimb("schema", "");
    AscentRepeat(|st.frames|, "protocol");
    AscentRepeat(|st.frames|, "schema");
    assert ProtocolItem(st, item) == Repeat(Up, |st.frames|) + ("protocol::" + item);
    AscentRepeat(|st.frames|, "protocol::" + item);
  }

  /** The stack paths fit on one line, so they can be written inside a
      `line`. */
  lemma {:induction false} RepeatUpSingleLine(n: nat)
    ensures '\n' !in Repeat(Up, n)
  {
    if n > 0 {
      RepeatUpSingleLine(n - 1);
    }
  }

  lemma ProtocolItemSingleLine(st: Stack, item: string)
    requires '\n' !in item
    ensures '\n' !in ProtocolItem(st, item)
  {
    RepeatUpSingleLine(|st.frames|);
  }

  /** One frame deeper, one more "super::". */
  lemma RootPush(st: Stack, frame: Frame)
    ensures Root(Push(st, frame)) == Root(st) + Up
  {
    RepeatSplit(Up, |st.frames|, 1);
  }

  /** The side client climbs one module up, then names `<side>::Client`
      there. */
  lemma SideClientOneUp(side: Side)
    ensures Ascent(SideClient(side)) == (1, SideName(side) + "::Client")
  {
    assert SideClient(side) == Repeat(Up, 1) + (SideName(side) + "::Client");
    NoClimb(SideName(side), "::Client");
    AscentRepeat(1, SideName(side) + "::Client");
  }

  /** The triplet lists Params, NotificationParams and Results in that
      order, each the protocol item of that name. */
  lemma TripletOrder(st: Stack)
    ensures Triplet(st) == Join([ProtocolItem(st, "Params"), ProtocolItem(st, "NotificationParams"), ProtocolItem(st, "Results")], ", ")
  {
    var items := [ProtocolItem(st, "Params"), ProtocolItem(st, "NotificationParams"), ProtocolItem(st, "Results")];
    assert items[1..][1..] == [items[2]];
    assert Join(items[1..], ", ") == items[1] + ", " + items[2];
  }

  // src/codegen/rust/prelude.rs: the variant of `RustStack` used by the
  // emitters that write one module further down.

  function PreludeRoot(st: Stack): string
  {
    Repeat(Up, |st.frames| + 1)
  }

  function PreludeProtocol(st: Stack): string
  {
    PreludeRoot(st) + "protocol"
  }

  function PreludeSchema(st: Stack): string
  {
    PreludeRoot(st) + "schema"
  }

  function RootClient(st: Stack): string
  {
    PreludeProtocol(st) + "::Client"
  }

  /** The prelude's paths climb one module more than those of `ast_ext`:
      they are the same paths seen from one frame deeper. */
  lemma PreludeOneDeeper(st: Stack, frame: Frame)
    ensures PreludeRoot(st) == Up + Root(st) == Root(Push(st, frame))
    ensures Ascent(PreludeProtocol(st)) == (|st.frames| + 1, "protocol")
    ensures Ascent(PreludeSchema(st)) == (|st.frames| + 1, "schema")
    ensures Ascent(RootClient(st)) == (|st.frames| + 1, "protocol::Client")
  {
    RepeatSplit(Up, 1, |st.frames|);
    assert Repeat(Up, 1) == Up;
    RootPush(st, frame);
    RepeatSplit(Up, |st.frames|, 1);
    PreludeAscent(st, "protocol");
    PreludeAscent(st, "schema");
    assert RootClient(st) == PreludeRoot(st) + "protocol::Client";
    PreludeAscent(st, "protocol::Client");
  }

  lemma PreludeAscent(st: Stack, tail: string)
    requires |tail| >= 2 && tail[1] != 'u'
    ensures Ascent(PreludeRoot(st) + tail) == (|st.frames| + 1, tail)
  {
    NoClimb(tail, "");
    assert tail + "" == tail;
    AscentRepeat(|st.frames| + 1, tail);
  }

  // src/codegen/rust/ir/ast_ext.rs: `RustFn` and `RustStruct`

  function CamelAll(names: seq<string>, camel: string -> string): (r: seq<string>)
    ensures |r| == |names| && forall k :: 0 <= k < |names| ==> r[k] == camel(names[k])
  {
    if names == [] then [] else [camel(names[0])] + CamelAll(names[1..], camel)
  }

  /** `variant`: the names, camel-cased, joined with "_". */
  function Variant(names: seq<string>, camel: string -> string): string
  {
    Join(CamelAll(names, camel), "_")
  }

  function FunVariant(a: Anchored<FunctionDecl>, camel: string -> string): string
  {
    Variant(FunNames(a), camel)
  }

  /** `Anchored<&StructDecl>::names`: the stack's names, then the struct's. */
  function StructNames(a: Anchored<StructDecl>): seq<string>
  {
    Names(a.stack) + [a.inner.name.text]
  }

  function StructVariant(a: Anchored<StructDecl>, camel: string -> string): string
  {
    Variant(StructNames(a), camel)
  }

  /** Camel-cased names have no underscores, so a variant splits on '_'
      back into the camel-cased names, one per frame plus the item's own. */
  lemma VariantSplits(names: seq<string>, camel: string -> string)
    requires names != []
    requires forall k :: 0 <= k < |names| ==> '_' !in camel(names[k])
    ensures Split(Variant(names, camel), '_') == CamelAll(names, camel)
  {
    JoinSplit(CamelAll(names, camel), '_');
  }

  /** `rust_name`: the names joined with "__". */
  function RustName(a: Anchored<FunctionDecl>): string
  {
    Join(FunNames(a), "__")
  }

  /** `slot`: the handler slot of a function. */
  function Slot(a: Anchored<FunctionDecl>): string
  {
    "on_" + RustName(a)
  }

  /** `module`: the function's module under the schema module. */
  function FunModule(a: Anchored<FunctionDecl>, st: Stack): string
  {
    SchemaPath(st) + "::" + Join(FunNames(a), "::")
  }

  function FunItem(a: Anchored<FunctionDecl>, st: Stack, item: string): string
  {
    FunModule(a, st) + "::" + item
  }

  function FunParams(a: Anchored<FunctionDecl>, st: Stack): string { FunItem(a, st, "Params") }
  function FunResults(a: Anchored<FunctionDecl>, st: Stack): string { FunItem(a, st, "Results") }
  function FunClient(a: Anchored<FunctionDecl>, st: Stack): string { FunItem(a, st, "Client") }
  function FunHandler(a: Anchored<FunctionDecl>, st: Stack): string { FunItem(a, st, "Handler") }

  /** A function nested in another's body extends the parent's Rust name,
      slot and module by its own name. */
  lemma NestedNames(parent: FunctionDecl, st: Stack, child: FunctionDecl, at: Stack)
    ensures var p := Anchored(parent, st);
      var c := Anchored(child, Push(st, FunctionFrame(parent)));
      && FunNames(c) == FunNames(p) + [child.name.text]
      && RustName(c) == RustName(p) + "__" + child.name.text
      && Slot(c) == Slot(p) + "__" + child.name.text
      && FunModule(c, at) == FunModule(p, at) + "::" + child.name.text
  {
    var p := Anchored(parent, st);
    var c := Anchored(child, Push(st, FunctionFrame(parent)));
    var x := child.name.text;
    NamesPush(st, FunctionFrame(parent));
    assert FunNames(c) == FunNames(p) + [x];
    assert |FunNames(p)| > 0;
    JoinAppend(FunNames(p), x, "__");
    JoinAppend(FunNames(p), x, "::");
    var r, j := RustName(p), Join(FunNames(p), "::");
    assert RustName(c) == r + "__" + x;
    assert Slot(c) == "on_" + (r + "__" + x);
    Assoc3("on_", r, "__", x);
    assert FunModule(c, at) == SchemaPath(at) + "::" + (j + "::" + x);
    Assoc3(SchemaPath(at) + "::", j, "::", x);
  }

  /** A function directly inside one namespace: its names are the two
      declarations' names. */
  lemma TwoNames(ns: NamespaceDecl, fun: FunctionDecl)
    ensures var a := Anchored(fun, Push(NewStack(), NamespaceFrame(ns)));
      && Method(a) == ns.name.text + "." + fun.name.text
      && RustName(a) == ns.name.text + "__" + fun.name.text
      && Slot(a) == "on_" + (ns.name.text + "__" + fun.name.text)
  {
    var a := Anchored(fun, Push(NewStack(), NamespaceFrame(ns)));
    NamesPush(NewStack(), NamespaceFrame(ns));
    var names := FunNames(a);
    assert names == [ns.name.text, fun.name.text];
    assert names[1..] == [fun.name.text];
    assert Join(names, ".") == ns.name.text + "." + Join([fun.name.text], ".");
    assert Join(names, "__") == ns.name.text + "__" + Join([fun.name.text], "__");
  }

  /** The example of the source's own comment: `session.attempt_login`
      has the Rust name `session__attempt_login` and the slot
      `on_session__attempt_login`. */
  lemma SlotExample(session: NamespaceDecl, login: FunctionDecl)
    requires session.name.text == "session" && login.name.text == "attempt_login"
    ensures var a := Anchored(login, Push(NewStack(), NamespaceFrame(session)));
      && Method(a) == "session" + "." + "attempt_login"
      && RustName(a) == "session" + "__" + "attempt_login"
      && Slot(a) == "on_" + ("session" + "__" + "attempt_login")
  {
    TwoNames(session, login);
  }

  /** Every path derived from a function climbs to the schema module and then
      descends through the function's names. */
  lemma FunModuleLeadsToSchema(a: Anchored<FunctionDecl>, st: Stack, item: string)
    ensures Ascent(FunModule(a, st)) == (|st.frames|, "schema::" + Join(FunNames(a), "::"))
    ensures Ascent(FunItem(a, st, item)) == (|st.frames|, "schema::" + Join(FunNames(a), "::") + "::" + item)
  {
    var path := Join(FunNames(a), "::");
    NoClimb("schema", "::" + path);
    NoClimb("schema", "::" + path + "::" + item);
    assert FunModule(a, st) == Repeat(Up, |st.frames|) + ("schema::" + path);
    AscentRepeat(|st.frames|, "schema::" + path);
    assert FunItem(a, st, item) == Repeat(Up, |st.frames|) + ("schema::" + path + "::" + item);
    AscentRepeat(|st.frames|, "schema::" + path + "::" + item);
  }
}
