/** The Rust syntax builders of the newer generator: `Allow`,
    `serde_untagged`, `_Fn` and `_Impl` (src/codegen/rust/lang.rs, repeated
    word for word in src/codegen/rust/ir/lang.rs), and the `_Enum` and
    `Derive` builders that only src/codegen/rust/ir/lang.rs has.  The older
    lavish/src/codegen/rust/ir.rs renders `Allow`, `_Fn`, `_Impl` and
    `_Enum` with the same code (its `_Enum` setters consume the builder
    instead of borrowing it), so the texts here are its texts too; only its
    `Derive`, with other paths, is its own (`LavishIr`).

    The consuming builders (`fn kw_pub(mut self) -> Self`) are values here;
    `_Enum`, whose setters take `&mut self`, is a class.  A closure passed
    as a body is the command list it writes.  `Display` renders a builder
    through `Scope::fmt`, a fresh scope at column 0, so its text is the
    command list rendered at indentation 0; `write_to` then writes that text
    into the caller's scope. */
module RustLang {
  import opened Common
  import opened LavishOutput
  import opened Layout
  import opened RustPaths

  // `Allow`

  datatype Allow = Allow(items: seq<string>)

  function NewAllow(): (r: Allow)
    ensures r.items == []
  {
    Allow([])
  }

  function NonCamelCase(a: Allow): (r: Allow)
    ensures r.items == a.items + ["non_camel_case_types"]
  {
    Allow(a.items + ["non_camel_case_types"])
  }

  function Unused(a: Allow): (r: Allow)
    ensures r.items == a.items + ["unused"]
  {
    Allow(a.items + ["unused"])
  }

  /** `Display for Allow`: one attribute line. */
  function AllowText(a: Allow): string
  {
    "#[allow(" + Join(a.items, ", ") + ")]\n"
  }

  /** The items appear in the order they were pushed. */
  lemma AllowOrder()
    ensures AllowText(Unused(NonCamelCase(NewAllow()))) == "#[allow(non_camel_case_types, unused)]\n"
  {
    var items := ["non_camel_case_types", "unused"];
    assert Unused(NonCamelCase(NewAllow())).items == items;
    assert items[1..] == ["unused"];
  }

  const SerdeUntagged: string := "#[serde(untagged)]\n"

  // `Derive`

  datatype Derive = Derive(items: seq<string>)

  function NewDerive(): (r: Derive)
    ensures r.items == []
  {
    Derive([])
  }

  function DeriveDebug(d: Derive): (r: Derive)
    ensures r.items == d.items + ["Debug"]
  {
    Derive(d.items + ["Debug"])
  }

  /** `Derive::clone`, which the protocol emitter calls; it is not defined
      in src/codegen/rust/ir/lang.rs and is taken to add "Clone" like its
      siblings add their trait. */
  function DeriveClone(d: Derive): (r: Derive)
    ensures r.items == d.items + ["Clone"]
  {
    Derive(d.items + ["Clone"])
  }

  function DeriveSerialize(d: Derive): (r: Derive)
    ensures r.items == d.items + [SerializeTrait]
  {
    Derive(d.items + [SerializeTrait])
  }

  function DeriveDeserialize(d: Derive): (r: Derive)
    ensures r.items == d.items + [DeserializeTrait]
  {
    Derive(d.items + [DeserializeTrait])
  }

  function DeriveText(d: Derive): string
  {
    "#[derive(" + Join(d.items, ", ") + ")]\n"
  }

  /** `derive().debug().serialize()`, as the atom emitter of
      src/codegen/rust/ir.rs writes it: the serde traits by their path
      through `::lavish`. */
  lemma DeriveOrder()
    ensures DeriveText(DeriveSerialize(DeriveDebug(NewDerive())))
      == "#[derive(Debug, " + SerializeTrait + ")]\n"
  {
    var items := ["Debug", SerializeTrait];
    assert DeriveSerialize(DeriveDebug(NewDerive())).items == items;
    assert items[1..] == [SerializeTrait];
  }

  // `_Fn`

  datatype TypeParam = TypeParam(name: string, constraint: Option<string>)

  datatype FnBuilder = FnBuilder(
    kwPub: bool,
    kwAsync: bool,
    selfArg: Option<string>,
    params: seq<string>,
    typeParams: seq<TypeParam>,
    name: string,
    ret: Option<string>,
    body: Option<seq<Cmd>>)

  /** `_fn(name)`: not public, not async, no parameters of any kind, no
      return type and no body. */
  function NewFn(name: string): (r: FnBuilder)
    ensures !r.kwPub && !r.kwAsync && r.selfArg.None? && r.params == [] && r.typeParams == []
    ensures r.name == name && r.ret.None? && r.body.None?
  {
    FnBuilder(false, false, None, [], [], name, None, None)
  }

  // Each setter changes its own field and nothing else.

  function FnKwPub(f: FnBuilder): (r: FnBuilder)
    ensures r.kwPub && r.(kwPub := f.kwPub) == f
  {
    f.(kwPub := true)
  }

  function FnKwAsync(f: FnBuilder): (r: FnBuilder)
    ensures r.kwAsync && r.(kwAsync := f.kwAsync) == f
  {
    f.(kwAsync := true)
  }

  function FnReturns(f: FnBuilder, ret: string): (r: FnBuilder)
    ensures r.ret == Some(ret) && r.(ret := f.ret) == f
  {
    f.(ret := Some(ret))
  }

  function FnBody(f: FnBuilder, body: seq<Cmd>): (r: FnBuilder)
    ensures r.body == Some(body) && r.(body := f.body) == f
  {
    f.(body := Some(body))
  }

  function FnSelfParam(f: FnBuilder, selfArg: string): (r: FnBuilder)
    ensures r.selfArg == Some(selfArg) && r.(selfArg := f.selfArg) == f
  {
    f.(selfArg := Some(selfArg))
  }

  function FnTypeParam(f: FnBuilder, name: string, constraint: Option<string>): (r: FnBuilder)
    ensures r.typeParams == f.typeParams + [TypeParam(name, constraint)] && r.(typeParams := f.typeParams) == f
  {
    f.(typeParams := f.typeParams + [TypeParam(name, constraint)])
  }

  function FnParam(f: FnBuilder, p: string): (r: FnBuilder)
    ensures r.params == f.params + [p] && r.(params := f.params) == f
  {
    f.(params := f.params + [p])
  }

  function ParamNames(tps: seq<TypeParam>): (r: seq<string>)
    ensures |r| == |tps| && forall k :: 0 <= k < |tps| ==> r[k] == tps[k].name
  {
    if tps == [] then [] else ParamNames(tps[..|tps| - 1]) + [tps[|tps| - 1].name]
  }

  /** The items of the parenthesised list: `self` first when set. */
  function ArgItems(f: FnBuilder): seq<string>
  {
    (if f.selfArg.Some? then [f.selfArg.value] else []) + f.params
  }

  /** The writes before the body: an unset keyword or return type is an
      empty write, which writes nothing and leaves the scope as it was. */
  function FnHeadPieces(f: FnBuilder): seq<string>
  {
    [ if f.kwPub then "pub " else "",
      if f.kwAsync then "async " else "",
      "fn ",
      f.name,
      ListText(Angle, true, ParamNames(f.typeParams)),
      ListText(Round, false, ArgItems(f)),
      if f.ret.Some? then " -> " + f.ret.value else "" ]
  }

  /** What the `Display` closure writes. */
  function FnCmds(f: FnBuilder): seq<Cmd>
  {
    Texts(FnHeadPieces(f)) + (if f.body.Some? then BlockCmds(f.body.value) else Texts([";", "\n"]))
  }

  function FnText(f: FnBuilder): string
  {
    RenderOut(0, NeedIndent, FnCmds(f))
  }

  /** The signature as the language lays it out: "pub " before "async "
      before "fn name", the type-parameter names in angle brackets unless
      there are none (their bounds are not written), the arguments always in
      parentheses with `self` first, and " -> ret" only when set. */
  function FnSignature(f: FnBuilder): string
  {
    (if f.kwPub then "pub " else "") + (if f.kwAsync then "async " else "") + "fn " + f.name
      + (if f.typeParams == [] then "" else "<" + Join(ParamNames(f.typeParams), ", ") + ">")
      + ("(" + Join(ArgItems(f), ", ") + ")")
      + (if f.ret.Some? then " -> " + f.ret.value else "")
  }

  lemma Concat7(a: string, b: string, c: string, d: string, e: string, f: string, g: string)
    ensures Concat([a, b, c, d, e, f, g]) == a + b + c + d + e + f + g
  {
    var s := [a, b, c, d, e, f, g];
    assert s[1..] == [b, c, d, e, f, g];
    assert s[1..][1..] == [c, d, e, f, g];
    assert s[1..][1..][1..] == [d, e, f, g];
    Concat4(d, e, f, g);
    assert Concat(s[1..][1..]) == c + d + e + f + g;
    assert Concat(s[1..]) == b + c + d + e + f + g;
  }

  /** An angle-bracket list that is left out when empty. */
  lemma AngleText(items: seq<string>)
    ensures ListText(Angle, true, items) == if items == [] then "" else "<" + Join(items, ", ") + ">"
  {
    assert [Open(Angle)] == "<" && [Close(Angle)] == ">";
  }

  /** A parenthesised list, written even when empty. */
  lemma RoundText(items: seq<string>)
    ensures ListText(Round, false, items) == "(" + Join(items, ", ") + ")"
  {
    assert [Open(Round)] == "(" && [Close(Round)] == ")";
  }

  lemma FnHeadText(f: FnBuilder)
    ensures Concat(FnHeadPieces(f)) == FnSignature(f)
  {
    var p := FnHeadPieces(f);
    Concat7(p[0], p[1], p[2], p[3], p[4], p[5], p[6]);
    assert p == [p[0], p[1], p[2], p[3], p[4], p[5], p[6]];
    AngleText(ParamNames(f.typeParams));
    RoundText(ArgItems(f));
  }

  /** The rendered function: the signature, then either the body as a block
      one level deeper with "}" at column 0, or ";" and a newline. */
  lemma FnLayout(f: FnBuilder)
    ensures FnText(f) == FnSignature(f) + (if f.body.Some? then " {\n" + RenderOut(IndentWidth, NeedIndent, f.body.value) + "}\n" else ";\n")
  {
    var pieces := FnHeadPieces(f);
    var tail := if f.body.Some? then BlockCmds(f.body.value) else Texts([";", "\n"]);
    TextsThen(NeedIndent, pieces, tail);
    FnHeadText(f);
    var st := RenderEnd(NeedIndent, Texts(pieces));
    if f.body.Some? {
      FlatBlock(st, f.body.value);
    } else {
      FlatLine(st, ";");
    }
  }

  /** `_fn(name)` unchanged renders as a bare declaration. */
  lemma FnMinimal(name: string)
    ensures FnText(NewFn(name)) == "fn " + name + "();\n"
  {
    FnLayout(NewFn(name));
  }

  // `_Impl`

  datatype ImplBuilder = ImplBuilder(trt: string, name: string, typeParams: seq<TypeParam>, body: Option<seq<Cmd>>)

  /** `_impl(trt, name)` */
  function NewImpl(trt: string, name: string): (r: ImplBuilder)
    ensures r.trt == trt && r.name == name && r.typeParams == [] && r.body.None?
  {
    ImplBuilder(trt, name, [], None)
  }

  function ImplTypeParam(i: ImplBuilder, name: string, constraint: Option<string>): (r: ImplBuilder)
    ensures r.typeParams == i.typeParams + [TypeParam(name, constraint)] && r.(typeParams := i.typeParams) == i
  {
    i.(typeParams := i.typeParams + [TypeParam(name, constraint)])
  }

  /** `type_params`: clones of the given parameters, appended in order. */
  function ImplTypeParams(i: ImplBuilder, ps: seq<TypeParam>): (r: ImplBuilder)
    ensures r.typeParams == i.typeParams + ps && r.(typeParams := i.typeParams) == i
  {
    i.(typeParams := i.typeParams + ps)
  }

  function ImplBody(i: ImplBuilder, body: seq<Cmd>): (r: ImplBuilder)
    ensures r.body == Some(body) && r.(body := i.body) == i
  {
    i.(body := Some(body))
  }

  /** A parameter with its bound, "name: constraint", or its bare name. */
  function Bounded(tp: TypeParam): string
  {
    if tp.constraint.Some? then tp.name + ": " + tp.constraint.value else tp.name
  }

  function BoundedAll(tps: seq<TypeParam>): (r: seq<string>)
    ensures |r| == |tps| && forall k :: 0 <= k < |tps| ==> r[k] == Bounded(tps[k])
  {
    if tps == [] then [] else BoundedAll(tps[..|tps| - 1]) + [Bounded(tps[|tps| - 1])]
  }

  function ImplBodyCmds(i: ImplBuilder): seq<Cmd>
  {
    if i.body.Some? then i.body.value else []
  }

  /** `Display for _Impl` as written: the bare names after "impl", the
      bounded parameters after the type's name. */
  function ImplCmdsAsWritten(i: ImplBuilder): seq<Cmd>
  {
    Texts(["impl", ListText(Angle, true, ParamNames(i.typeParams)), " " + i.trt + " for " + i.name,
           ListText(Angle, true, BoundedAll(i.typeParams))])
      + BlockCmds(ImplBodyCmds(i))
  }

  function ImplTextAsWritten(i: ImplBuilder): string
  {
    RenderOut(0, NeedIndent, ImplCmdsAsWritten(i))
  }

  /** The rendering Rust accepts, `impl<T: Bound> Trait for Name<T>`: the
      bounds are declared with the parameters, and the type takes the bare
      names.  The rest of the model uses this one. */
  function ImplCmds(i: ImplBuilder): seq<Cmd>
  {
    Texts(["impl", ListText(Angle, true, BoundedAll(i.typeParams)), " " + i.trt + " for " + i.name,
           ListText(Angle, true, ParamNames(i.typeParams))])
      + BlockCmds(ImplBodyCmds(i))
  }

  function ImplText(i: ImplBuilder): string
  {
    RenderOut(0, NeedIndent, ImplCmds(i))
  }

  /** Four writes then a block, at column 0. */
  lemma FourThenBlock(a: string, b: string, c: string, d: string, body: seq<Cmd>)
    ensures RenderOut(0, NeedIndent, Texts([a, b, c, d]) + BlockCmds(body))
      == a + b + c + d + " {\n" + RenderOut(IndentWidth, NeedIndent, body) + "}\n"
  {
    TextsThen(NeedIndent, [a, b, c, d], BlockCmds(body));
    Concat4(a, b, c, d);
    FlatBlock(RenderEnd(NeedIndent, Texts([a, b, c, d])), body);
  }

  /** The corrected rendering: "impl", the bounded parameters in angle
      brackets unless there are none, " Trait for Name", the bare names in
      angle brackets unless there are none, then the body as a block (an
      empty block when no body was given). */
  lemma ImplLayout(i: ImplBuilder)
    ensures ImplText(i) == "impl"
      + (if i.typeParams == [] then "" else "<" + Join(BoundedAll(i.typeParams), ", ") + ">")
      + (" " + i.trt + " for " + i.name)
      + (if i.typeParams == [] then "" else "<" + Join(ParamNames(i.typeParams), ", ") + ">")
      + " {\n" + RenderOut(IndentWidth, NeedIndent, ImplBodyCmds(i)) + "}\n"
  {
    FourThenBlock("impl", ListText(Angle, true, BoundedAll(i.typeParams)), " " + i.trt + " for " + i.name,
      ListText(Angle, true, ParamNames(i.typeParams)), ImplBodyCmds(i));
    AngleText(BoundedAll(i.typeParams));
    AngleText(ParamNames(i.typeParams));
  }

  /** Without bounds the two renderings are the same text. */
  lemma ImplUnboundedAgrees(i: ImplBuilder)
    requires forall k :: 0 <= k < |i.typeParams| ==> i.typeParams[k].constraint.None?
    ensures ImplTextAsWritten(i) == ImplText(i)
  {
    assert BoundedAll(i.typeParams) == ParamNames(i.typeParams);
  }

  /** `_impl(trt, name).type_param(t, Some(c))`: one bounded parameter and
      no body. */
  function OneBound(trt: string, name: string, t: string, c: string): ImplBuilder
  {
    ImplTypeParam(NewImpl(trt, name), t, Some(c))
  }

  lemma OneBoundLists(trt: string, name: string, t: string, c: string)
    ensures ListText(Angle, true, ParamNames(OneBound(trt, name, t, c).typeParams)) == "<" + t + ">"
    ensures ListText(Angle, true, BoundedAll(OneBound(trt, name, t, c).typeParams)) == "<" + (t + ": " + c) + ">"
    ensures ImplBodyCmds(OneBound(trt, name, t, c)) == []
  {
    var tps := OneBound(trt, name, t, c).typeParams;
    assert tps[..0] == [];
    AngleText(ParamNames(tps));
    AngleText(BoundedAll(tps));
  }

  /** As written, a bounded parameter puts its bound on the type's
      argument: `impl<T> Tr for N<T: Send>`, which is not Rust. */
  lemma ImplBoundMisplaced(trt: string, name: string, t: string, c: string)
    ensures ImplTextAsWritten(OneBound(trt, name, t, c))
      == "impl" + ("<" + t + ">") + (" " + trt + " for " + name) + ("<" + (t + ": " + c) + ">") + " {\n" + "}\n"
  {
    OneBoundLists(trt, name, t, c);
    FourThenBlock("impl", "<" + t + ">", " " + trt + " for " + name, "<" + (t + ": " + c) + ">", []);
    assert RenderOut(IndentWidth, NeedIndent, []) == "";
  }

  /** Corrected, the bound is declared with the parameter:
      `impl<T: Send> Tr for N<T>`. */
  lemma ImplBoundPlaced(trt: string, name: string, t: string, c: string)
    ensures ImplText(OneBound(trt, name, t, c))
      == "impl" + ("<" + (t + ": " + c) + ">") + (" " + trt + " for " + name) + ("<" + t + ">") + " {\n" + "}\n"
  {
    OneBoundLists(trt, name, t, c);
    FourThenBlock("impl", "<" + (t + ": " + c) + ">", " " + trt + " for " + name, "<" + t + ">", []);
    assert RenderOut(IndentWidth, NeedIndent, []) == "";
  }

  // `_Enum`

  /** `Display for _Enum`: the annotations, "pub " when set, "enum Name",
      then " {}" when there are no variants or a block of "variant," lines.
      A variant's text and its comma are one write here: consecutive writes
      render as their concatenation (`LavishOutput.OutAppend`). */
  function EnumCmds(kwPub: bool, name: string, annotations: seq<string>, variants: seq<string>): seq<Cmd>
  {
    Texts(annotations) + (Texts(EnumHead(kwPub, name)) + EnumBodyCmds(variants))
  }

  function EnumHead(kwPub: bool, name: string): seq<string>
  {
    [if kwPub then "pub " else "", "enum ", name]
  }

  function EnumBodyCmds(variants: seq<string>): seq<Cmd>
  {
    if variants == [] then Texts([" {}", "\n"]) else BlockCmds(LinesCmds(WithComma(variants)))
  }

  function WithComma(vs: seq<string>): (r: seq<string>)
    ensures |r| == |vs| && forall k :: 0 <= k < |vs| ==> r[k] == vs[k] + ","
  {
    if vs == [] then [] else WithComma(vs[..|vs| - 1]) + [vs[|vs| - 1] + ","]
  }

  function EnumText(kwPub: bool, name: string, annotations: seq<string>, variants: seq<string>): string
  {
    RenderOut(0, NeedIndent, EnumCmds(kwPub, name, annotations, variants))
  }

  /** An enum renders as its annotations, its head, and either "{}" on the
      same line or one "variant," line per variant, in order, four columns
      in, closed by "}" at column 0. */
  lemma EnumLayout(kwPub: bool, name: string, annotations: seq<string>, variants: seq<string>)
    requires forall k :: 0 <= k < |variants| ==> '\n' !in variants[k]
    ensures EnumText(kwPub, name, annotations, variants)
      == Concat(annotations) + (if kwPub then "pub " else "") + "enum " + name
        + (if variants == [] then " {}\n" else " {\n" + LinesText(IndentWidth, WithComma(variants)) + "}\n")
  {
    var three := EnumHead(kwPub, name);
    var st := RenderEnd(RenderEnd(NeedIndent, Texts(annotations)), Texts(three));
    TextsTwiceThen(NeedIndent, annotations, three, EnumBodyCmds(variants));
    Concat3(three[0], three[1], three[2]);
    EnumBodyLayout(st, variants);
    var a, h, b := Concat(annotations), Concat(three), RenderOut(0, st, EnumBodyCmds(variants));
    assert EnumText(kwPub, name, annotations, variants) == a + h + b;
    AppendAssoc(a + three[0] + three[1], three[2], b);
    AppendAssoc(a + three[0], three[1], three[2]);
    AppendAssoc(a, three[0], three[1]);
    AppendAssoc(a, three[0] + three[1], three[2]);
  }

  lemma EnumBodyLayout(st: ScopeState, variants: seq<string>)
    requires forall k :: 0 <= k < |variants| ==> '\n' !in variants[k]
    ensures RenderOut(0, st, EnumBodyCmds(variants))
      == if variants == [] then " {}\n" else " {\n" + LinesText(IndentWidth, WithComma(variants)) + "}\n"
  {
    if variants == [] {
      FlatLine(st, " {}");
    } else {
      var lines := WithComma(variants);
      forall k | 0 <= k < |lines|
        ensures '\n' !in lines[k]
      {
        assert lines[k] == variants[k] + ",";
      }
      FlatBlock(st, LinesCmds(lines));
      LinesLayout(IndentWidth, lines);
    }
  }

  /** `_Enum`, filled in through `&mut self` setters. */
  class EnumBuilder {
    var kwPub: bool
    const name: string
    var annotations: seq<string>
    var variants: seq<string>

    /** `_enum(name)` */
    constructor(name: string)
      ensures this.name == name && !kwPub && annotations == [] && variants == []
    {
      this.name := name;
      kwPub := false;
      annotations := [];
      variants := [];
    }

    method KwPub()
      modifies this
      ensures kwPub && annotations == old(annotations) && variants == old(variants)
    {
      kwPub := true;
    }

    method Annotation(d: string)
      modifies this
      ensures annotations == old(annotations) + [d]
      ensures kwPub == old(kwPub) && variants == old(variants)
    {
      annotations := annotations + [d];
    }

    method Variant(d: string)
      modifies this
      ensures variants == old(variants) + [d]
      ensures kwPub == old(kwPub) && annotations == old(annotations)
    {
      variants := variants + [d];
    }

    function Text(): string
      reads this
    {
      EnumText(kwPub, name, annotations, variants)
    }
  }

  /** A public enum filled annotation by annotation and variant by
      variant, as the atom emitter does, renders them in the order they were
      added (its layout is `EnumLayout`). */
  method BuildEnum(name: string, annotations: seq<string>, variants: seq<string>) returns (text: string)
    ensures text == EnumText(true, name, annotations, variants)
  {
    var e := new EnumBuilder(name);
    for i := 0 to |annotations|
      invariant e.annotations == annotations[..i] && e.variants == [] && !e.kwPub
    {
      e.Annotation(annotations[i]);
      assert annotations[..i + 1] == annotations[..i] + [annotations[i]];
    }
    e.KwPub();
    for i := 0 to |variants|
      invariant e.annotations == annotations && e.variants == variants[..i] && e.kwPub
    {
      e.Variant(variants[i]);
      assert variants[..i + 1] == variants[..i] + [variants[i]];
    }
    assert annotations[..|annotations|] == annotations;
    assert variants[..|variants|] == variants;
    text := e.Text();
  }

  // Debug quoting

  /** `quoted` (src/codegen/rust/ir/lang.rs, and the same helper in both
      generations' `ir.rs`): Rust's `{:?}` of a string, in double quotes,
      with each character escaped the way `char::escape_debug` does it for
      the ASCII range. */
  function Quoted(s: string): (r: string)
    ensures |r| >= 2 && r[0] == '"' && r[|r| - 1] == '"'
  {
    "\"" + EscapeDebug(s) + "\""
  }

  /** An ASCII control character that has no short escape of its own. */
  predicate Control(c: char)
  {
    (c as int < 0x20 && c != '\0' && c != '\t' && c != '\r' && c != '\n') || c as int == 0x7F
  }

  /** A character `{:?}` writes as it is. */
  predicate Plain(c: char)
  {
    0x20 <= c as int < 0x7F && c != '\\' && c != '"'
  }

  /** A lower-case hex digit. */
  function HexDigit(n: nat): char
    requires n < 16
  {
    if n < 10 then '0' + n as char else 'a' + (n - 10) as char
  }

  function HexValue(d: char): nat
  {
    if '0' <= d <= '9' then d as nat - '0' as nat
    else if 'a' <= d <= 'f' then d as nat - 'a' as nat + 10
    else 0
  }

  /** A hex digit reads back as its value. */
  lemma HexDigitValue(n: nat)
    requires n < 16
    ensures HexValue(HexDigit(n)) == n && HexDigit(n) != '}'
  {
  }

  /** Hex digits of `n`, without leading zeros. */
  function Hex(n: nat): string
    requires n < 256
  {
    if n < 16 then [HexDigit(n)] else [HexDigit(n / 16), HexDigit(n % 16)]
  }

  function EscapeChar(c: char): (r: string)
    ensures |r| >= 1
  {
    if Plain(c) || c as int >= 0x80 then [c] else Escape(c)
  }

  /** The escape of an ASCII character `{:?}` does not write as it is: a
      short escape where Rust has one, else `\u{..}` with its hex digits. */
  function Escape(c: char): string
    requires c as int < 0x80
  {
    match c
    case '\\' => "\\\\"
    case '"' => "\\\""
    case '\0' => "\\0"
    case '\t' => "\\t"
    case '\r' => "\\r"
    case '\n' => "\\n"
    case _ => "\\u{" + Hex(c as nat) + "}"
  }

  /** A character is written as a single character exactly when it is
      printable ASCII other than the backslash and the double quote, or lies
      above ASCII; every other character becomes an escape. */
  lemma EscapeCharSingle(c: char)
    ensures |EscapeChar(c)| == 1 <==> Plain(c) || c as int >= 0x80
    ensures |EscapeChar(c)| == 1 ==> EscapeChar(c) == [c]
  {
  }

  function EscapeDebug(s: string): (r: string)
  {
    if s == "" then "" else EscapeChar(s[0]) + EscapeDebug(s[1..])
  }

  /** Reads an escaped string back, the way a Rust string literal is read;
      a `\u{..}` escape is read for the one or two hex digits the escaping writes. */
  function UnescapeDebug(s: string): string
  {
    if s == "" then ""
    else if s[0] == '\\' && |s| >= 5 && s[1] == 'u' && s[2] == '{' && s[4] == '}' then
      [HexValue(s[3]) as char] + UnescapeDebug(s[5..])
    else if s[0] == '\\' && |s| >= 6 && s[1] == 'u' && s[2] == '{' && s[5] == '}' && 16 * HexValue(s[3]) + HexValue(s[4]) < 0xD800 then
      [(16 * HexValue(s[3]) + HexValue(s[4])) as char] + UnescapeDebug(s[6..])
    else if s[0] == '\\' && |s| >= 2 then
      (match s[1]
       case '0' => "\0"
       case 't' => "\t"
       case 'r' => "\r"
       case 'n' => "\n"
       case c => [c]) + UnescapeDebug(s[2..])
    else [s[0]] + UnescapeDebug(s[1..])
  }

  /** One escaped character reads back as itself, whatever follows it. */
  lemma UnescapeChar(c: char, t: string)
    ensures UnescapeDebug(EscapeChar(c) + t) == [c] + UnescapeDebug(t)
  {
    var e := EscapeChar(c);
    if |e| == 1 {
      assert (e + t)[1..] == t;
    } else if Control(c) && c as int < 16 {
      HexDigitValue(c as nat);
      assert e == "\\u{" + [HexDigit(c as nat)] + "}";
      assert (e + t)[5..] == t;
    } else if Control(c) {
      var n := c as nat;
      HexDigitValue(n / 16);
      HexDigitValue(n % 16);
      assert e == "\\u{" + [HexDigit(n / 16), HexDigit(n % 16)] + "}";
      assert 16 * (n / 16) + n % 16 == n;
      assert (e + t)[6..] == t;
    } else {
      assert (e + t)[2..] == t;
    }
  }

  /** Reading the quoted text back gives the original string. */
  lemma {:induction false} UnescapeEscape(s: string)
    ensures UnescapeDebug(EscapeDebug(s)) == s
  {
    if s != "" {
      UnescapeEscape(s[1..]);
      UnescapeChar(s[0], EscapeDebug(s[1..]));
      assert s == [s[0]] + s[1..];
    }
  }

  /** Between its quotes, a quoted string reads back as itself: the method
      names `method` quotes are the functions' own. */
  lemma QuotedReadsBack(s: string)
    ensures var q := Quoted(s); UnescapeDebug(q[1..|q| - 1]) == s
  {
    var q := Quoted(s);
    assert q[1..|q| - 1] == EscapeDebug(s);
    UnescapeEscape(s);
  }

  /** Printable ASCII other than the backslash and the double quote needs no
      escaping: identifiers are quoted as they are. */
  lemma {:induction false} QuotedPlain(s: string)
    requires forall k :: 0 <= k < |s| ==> Plain(s[k])
    ensures Quoted(s) == "\"" + s + "\""
  {
    PlainUnchanged(s);
  }

  lemma {:induction false} PlainUnchanged(s: string)
    requires forall k :: 0 <= k < |s| ==> Plain(s[k])
    ensures EscapeDebug(s) == s
  {
    if s != "" {
      PlainUnchanged(s[1..]);
      assert Plain(s[0]);
      assert s == [s[0]] + s[1..];
    }
  }

  /** No ASCII control character occurs in `s`. */
  predicate NoControlIn(s: string)
  {
    forall k :: 0 <= k < |s| ==> s[k] as int >= 0x20 && s[k] as int != 0x7F
  }

  lemma NoControlAppend(a: string, b: string)
    requires NoControlIn(a) && NoControlIn(b)
    ensures NoControlIn(a + b)
  {
    forall k | 0 <= k < |a + b|
      ensures (a + b)[k] as int >= 0x20 && (a + b)[k] as int != 0x7F
    {
      if k >= |a| {
        assert (a + b)[k] == b[k - |a|];
      }
    }
  }

  /** A control character is escaped: `{:?}` never writes one as it is. */
  lemma {:induction false} QuotedHasNoControl(s: string)
    ensures NoControlIn(EscapeDebug(s))
  {
    if s != "" {
      QuotedHasNoControl(s[1..]);
      var e := EscapeChar(s[0]);
      assert NoControlIn(e);
      NoControlAppend(e, EscapeDebug(s[1..]));
    }
  }
}
