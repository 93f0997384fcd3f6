/** The protocol emitter (src/codegen/rust/ir/protocol.rs): the `protocol`
    module with its three atoms (`Params`, `Results`, `NotificationParams`),
    the specialisations of the runtime's generic types, and the translation
    tables that map each atom, struct and enum onto offsets.

    Several names the emitter reads are not part of this model and are
    parameters: the facts library's module, traits and
    structs (`Facts`), the stack's `ProtocolMapping` path and `quadruplet`,
    the walks over the schema's structs and enums, and an enum's `variant`.
    `camel` is heck's camel-casing.

    Two builder calls are defined nowhere in the source.  `_impl_trait(trait,
    name)` (src/codegen/rust/ir/protocol.rs:238 and 343) is rendered as the
    two-argument `_impl` (`RustLang.ImplCmds`).  `self_bound("Sized")` on
    `read` (src/codegen/rust/ir/protocol.rs:248) is not rendered: `ReadFn`
    has no `where Self: Sized`. */
module RustProtocol {
  import opened Common
  import opened NewAst
  import opened Anchored
  import opened LavishOutput
  import opened Layout
  import opened RustPaths
  import opened RustLang

  /** The facts library's names: its module path, the `Factual`, `Read` and
      `Write` traits, and the `Reader` and `Error` structs. */
  datatype Facts = Facts(lib: string, factual: string, read: string, write: string, reader: string, error: string)

  /** What the emitter is given: the namespace body anchored in its stack,
      and what this model takes as parameters. */
  datatype Protocol = Protocol(
    body: Anchored<NamespaceBody>,
    facts: Facts,
    mapping: string,
    quadruplet: string,
    structs: seq<Anchored<StructDecl>>,
    enums: seq<Anchored<EnumDecl>>,
    enumVariant: Anchored<EnumDecl> -> string,
    camel: string -> string)

  /** One atom: the enum of every schema function of its kind. */
  datatype Atom = Atom(name: string, kind: Kind)

  /** `get_builtins` */
  const Builtins: seq<(Kind, string)> := [(Request, "Params"), (Request, "Results"), (Notification, "NotificationParams")]

  /** The atoms `write_atoms` writes: the builtins, in the same order, with
      the same kinds and names. */
  function Atoms(): (r: seq<Atom>)
    ensures |r| == |Builtins|
    ensures forall k :: 0 <= k < |r| ==> r[k].kind == Builtins[k].0 && r[k].name == Builtins[k].1
  {
    [Atom("Params", Request), Atom("Results", Request), Atom("NotificationParams", Notification)]
  }

  // Functions of a kind

  /** `for_each_fun_of_schema` from the protocol's body. */
  function SchemaFunsOf(p: Protocol): seq<Anchored<FunctionDecl>>
  {
    SchemaFuns(p.body.stack, p.body.inner)
  }

  /** `Atom::for_each_fun`: the functions of the atom's kind, in order. */
  function KindFuns(kind: Kind, fs: seq<Anchored<FunctionDecl>>): (r: seq<Anchored<FunctionDecl>>)
    ensures forall x :: x in r <==> x in fs && x.inner.kind == kind
  {
    FilterFuns((x: Anchored<FunctionDecl>) => x.inner.kind == kind, fs)
  }

  /** Every function belongs to exactly one of the two kinds' atoms. */
  lemma KindsPartition(fs: seq<Anchored<FunctionDecl>>)
    ensures |KindFuns(Request, fs)| + |KindFuns(Notification, fs)| == |fs|
  {
    FilterComplement((x: Anchored<FunctionDecl>) => x.inner.kind == Request, (x: Anchored<FunctionDecl>) => x.inner.kind == Notification, fs);
  }

  lemma KindFunsStep(kind: Kind, fs: seq<Anchored<FunctionDecl>>, i: nat)
    requires i < |fs|
    ensures KindFuns(kind, fs[..i + 1])
      == KindFuns(kind, fs[..i]) + (if fs[i].inner.kind == kind then [fs[i]] else [])
  {
    assert fs[..i + 1][..i] == fs[..i];
  }

  /** `Atom::fun_count`: a counter bumped once per function of the kind. */
  method FunCount(kind: Kind, fs: seq<Anchored<FunctionDecl>>) returns (count: nat)
    ensures count == |KindFuns(kind, fs)|
  {
    count := 0;
    for i := 0 to |fs|
      invariant count == |KindFuns(kind, fs[..i])|
    {
      KindFunsStep(kind, fs, i);
      if fs[i].inner.kind == kind {
        count := count + 1;
      }
    }
    assert fs[..|fs|] == fs;
  }

  // Offsets

  /** The rendered offsets `0, 1, ..., n - 1`. */
  function Offsets(n: nat): (r: seq<string>)
    ensures |r| == n
  {
    MapToString(Range(n))
  }

  lemma OffsetsStep(n: nat)
    ensures Offsets(n + 1) == Offsets(n) + [NatToString(n)]
  {
    var a, b := Offsets(n + 1), Offsets(n) + [NatToString(n)];
    assert forall k :: 0 <= k < n + 1 ==> a[k] == b[k];
  }

  /** Each offset reads back as its own position: the table lists 0 up to
      n - 1, each once, in order. */
  lemma OffsetsParse(n: nat)
    ensures forall k :: 0 <= k < n ==> ParseDecimal(Offsets(n)[k]) == k
  {
    forall k | 0 <= k < n
      ensures ParseDecimal(Offsets(n)[k]) == k
    {
      NatToStringParses(k);
    }
  }

  /** The default mapping of a builtin: a counter over the schema's
      functions, bumped for each one of the builtin's kind, whose every value
      is pushed as text. */
  method BuiltinOffsets(kind: Kind, fs: seq<Anchored<FunctionDecl>>) returns (values: seq<string>)
    ensures values == Offsets(|KindFuns(kind, fs)|)
  {
    values := [];
    var i: nat := 0;
    for j := 0 to |fs|
      invariant i == |KindFuns(kind, fs[..j])|
      invariant values == Offsets(i)
    {
      KindFunsStep(kind, fs, j);
      if fs[j].inner.kind == kind {
        OffsetsStep(i);
        values := values + [NatToString(i)];
        i := i + 1;
      }
    }
    assert fs[..|fs|] == fs;
  }

  /** The default mapping of a struct or an enum: `for i in 0..n`. */
  method RangeOffsets(n: nat) returns (values: seq<string>)
    ensures values == Offsets(n)
  {
    values := [];
    for i := 0 to n
      invariant values == Offsets(i)
    {
      OffsetsStep(i);
      values := values + [NatToString(i)];
    }
  }

  // `read` and `write`: the atom's variants and their indices

  /** The variants of the given functions, in order. */
  function Variants(fs: seq<Anchored<FunctionDecl>>, camel: string -> string): (r: seq<string>)
    ensures |r| == |fs| && forall k :: 0 <= k < |fs| ==> r[k] == FunVariant(fs[k], camel)
  {
    if fs == [] then [] else Variants(fs[..|fs| - 1], camel) + [FunVariant(fs[|fs| - 1], camel)]
  }

  /** The arm of `read` for index `i`. */
  function ReadArm(name: string, i: nat, variant: string): string
  {
    NatToString(i) + " => Ok(" + name + "::" + variant + "(Self::subread(rd)?)),"
  }

  /** The arm of `write` for a variant, carrying the index `i`; the second
      line is written four columns further in. */
  function WriteArm(name: string, i: nat, variant: string): string
  {
    name + "::" + variant + "(value) =>\n    o.write_union(wr, mapping, " + Quoted(name) + ", " + Quoted(variant) + ", "
      + NatToString(i) + ", value),"
  }

  /** The arms of `read`: the k-th reads index k as the k-th variant. */
  function ReadArms(name: string, vs: seq<string>): (r: seq<string>)
    ensures |r| == |vs| && forall k :: 0 <= k < |vs| ==> r[k] == ReadArm(name, k, vs[k])
  {
    seq(|vs|, k requires 0 <= k < |vs| => ReadArm(name, k, vs[k]))
  }

  /** The arms of `write`: the k-th writes the k-th variant with index k. */
  function WriteArms(name: string, vs: seq<string>): (r: seq<string>)
    ensures |r| == |vs| && forall k :: 0 <= k < |vs| ==> r[k] == WriteArm(name, k, vs[k])
  {
    seq(|vs|, k requires 0 <= k < |vs| => WriteArm(name, k, vs[k]))
  }

  lemma ArmsStep(name: string, vs: seq<string>, v: string)
    ensures ReadArms(name, vs + [v]) == ReadArms(name, vs) + [ReadArm(name, |vs|, v)]
    ensures WriteArms(name, vs + [v]) == WriteArms(name, vs) + [WriteArm(name, |vs|, v)]
  {
    assert (vs + [v])[..|vs|] == vs;
  }

  lemma VariantsStep(kind: Kind, fs: seq<Anchored<FunctionDecl>>, j: nat, camel: string -> string)
    requires j < |fs|
    ensures Variants(KindFuns(kind, fs[..j + 1]), camel)
      == Variants(KindFuns(kind, fs[..j]), camel) + (if fs[j].inner.kind == kind then [FunVariant(fs[j], camel)] else [])
  {
    KindFunsStep(kind, fs, j);
    var a, b := KindFuns(kind, fs[..j]), KindFuns(kind, fs[..j + 1]);
    if fs[j].inner.kind == kind {
      assert b[..|b| - 1] == a;
    } else {
      assert b == a;
    }
  }

  /** `read`'s match arms as the emitter writes them: a counter `i` runs
      over the functions of the atom's kind, one arm per function. */
  method EmitReadArms(a: Atom, fs: seq<Anchored<FunctionDecl>>, camel: string -> string) returns (arms: seq<string>)
    ensures arms == ReadArms(a.name, Variants(KindFuns(a.kind, fs), camel))
  {
    arms := [];
    var i: nat := 0;
    for j := 0 to |fs|
      invariant i == |KindFuns(a.kind, fs[..j])|
      invariant arms == ReadArms(a.name, Variants(KindFuns(a.kind, fs[..j]), camel))
    {
      KindFunsStep(a.kind, fs, j);
      VariantsStep(a.kind, fs, j, camel);
      if fs[j].inner.kind == a.kind {
        ArmsStep(a.name, Variants(KindFuns(a.kind, fs[..j]), camel), FunVariant(fs[j], camel));
        arms := arms + [ReadArm(a.name, i, FunVariant(fs[j], camel))];
        i := i + 1;
      }
    }
    assert fs[..|fs|] == fs;
  }

  /** `write`'s match arms, with their own counter over the same functions. */
  method EmitWriteArms(a: Atom, fs: seq<Anchored<FunctionDecl>>, camel: string -> string) returns (arms: seq<string>)
    ensures arms == WriteArms(a.name, Variants(KindFuns(a.kind, fs), camel))
  {
    arms := [];
    var i: nat := 0;
    for j := 0 to |fs|
      invariant i == |KindFuns(a.kind, fs[..j])|
      invariant arms == WriteArms(a.name, Variants(KindFuns(a.kind, fs[..j]), camel))
    {
      KindFunsStep(a.kind, fs, j);
      VariantsStep(a.kind, fs, j, camel);
      if fs[j].inner.kind == a.kind {
        ArmsStep(a.name, Variants(KindFuns(a.kind, fs[..j]), camel), FunVariant(fs[j], camel));
        arms := arms + [WriteArm(a.name, i, FunVariant(fs[j], camel))];
        i := i + 1;
      }
    }
    assert fs[..|fs|] == fs;
  }

  /** What the emitted `read` returns for an array of length `len` whose
      first element is `typ`: the variant of arm `typ`, or the unreachable
      arm. */
  datatype Decoded = Decoded(variant: string) | Unreachable

  function GeneratedRead(vs: seq<string>, len: int, typ: int): (r: Decoded)
    ensures r.Decoded? <==> len == 2 && 0 <= typ < |vs|
  {
    if len != 2 then Unreachable
    else if 0 <= typ < |vs| then Decoded(vs[typ])
    else Unreachable
  }

  /** The index the emitted `write` puts beside a variant: that of the first
      arm matching it, as a Rust `match` picks. */
  function GeneratedWrite(vs: seq<string>, v: string): (r: Option<nat>)
    ensures r.Some? ==> r.value < |vs| && vs[r.value] == v
  {
    if vs == [] then None
    else if vs[0] == v then Some(0)
    else match GeneratedWrite(vs[1..], v)
      case Some(i) => Some(i + 1)
      case None => None
  }

  /** Written then read back, a variant comes back as itself. */
  lemma {:induction false} WriteThenRead(vs: seq<string>, v: string)
    requires v in vs
    ensures GeneratedWrite(vs, v).Some?
    ensures GeneratedRead(vs, 2, GeneratedWrite(vs, v).value) == Decoded(v)
  {
    if vs[0] != v {
      WriteThenRead(vs[1..], v);
    }
  }

  /** With distinct variants, the index read is the index written. */
  lemma {:induction false} ReadThenWrite(vs: seq<string>, typ: nat)
    requires forall i, j :: 0 <= i < j < |vs| ==> vs[i] != vs[j]
    requires typ < |vs|
    ensures GeneratedWrite(vs, GeneratedRead(vs, 2, typ).variant) == Some(typ)
  {
    if typ > 0 {
      ReadThenWrite(vs[1..], typ - 1);
      assert vs[0] != vs[typ];
    }
  }

  // `method`

  /** The arms of `method`: each function's variant mapped to its method
      name, quoted. */
  function MethodArms(name: string, fs: seq<Anchored<FunctionDecl>>, camel: string -> string): (r: seq<string>)
    ensures |r| == |fs|
    ensures forall k :: 0 <= k < |fs| ==> r[k] == name + "::" + FunVariant(fs[k], camel) + "(_) => " + Quoted(Method(fs[k])) + ","
  {
    seq(|fs|, k requires 0 <= k < |fs| => name + "::" + FunVariant(fs[k], camel) + "(_) => " + Quoted(Method(fs[k])) + ",")
  }

  function PanicLine(name: string): string
  {
    "panic!(\"no variants for " + name + "\")"
  }

  /** `implement_method`'s body: a panic when the atom has no function,
      otherwise a `match self` with one arm per function. */
  function MethodBody(a: Atom, fs: seq<Anchored<FunctionDecl>>, camel: string -> string): seq<Cmd>
  {
    var own := KindFuns(a.kind, fs);
    if |own| == 0 then LineCmds(PanicLine(a.name))
    else [Text("match self")] + BlockCmds(LinesCmds(MethodArms(a.name, own, camel)))
  }

  /** `method` panics exactly when no schema function has the atom's kind. */
  lemma MethodPanicsIffEmpty(a: Atom, fs: seq<Anchored<FunctionDecl>>, camel: string -> string)
    ensures MethodBody(a, fs, camel) == LineCmds(PanicLine(a.name)) <==> forall x :: x in fs ==> x.inner.kind != a.kind
  {
    var own := KindFuns(a.kind, fs);
    if |own| != 0 {
      assert own[0] in own;
      assert MethodBody(a, fs, camel)[0] == Text("match self");
      assert PanicLine(a.name)[0] == 'p';
    }
  }

  // `Display for Atom`

  function MethodFn(a: Atom, fs: seq<Anchored<FunctionDecl>>, camel: string -> string): FnBuilder
  {
    FnBody(FnReturns(FnSelfParam(NewFn("method"), "&self"), "&'static str"), MethodBody(a, fs, camel))
  }

  /** `read`: the array must have two elements, the first of which selects
      the arm. */
  function ReadBody(a: Atom, vs: seq<string>): seq<Cmd>
  {
    LineCmds("let len = rd.read_array_len()?;")
      + ([Text("if len != 2")] + BlockCmds(LineCmds("unreachable!();")))
      + LineCmds("let typ: u32 = rd.read_int()?;")
      + ([Text("match typ")] + BlockCmds(LinesCmds(ReadArms(a.name, vs)) + LineCmds("_ => unreachable!(),")))
  }

  function WriteBody(a: Atom, vs: seq<string>): seq<Cmd>
  {
    LineCmds("let o = &mapping.__" + a.name + ";")
      + ([Text("match self")] + BlockCmds(LinesCmds(WriteArms(a.name, vs)) + LineCmds("_ => unreachable!(),")))
  }

  function ReadFn(p: Protocol, a: Atom, vs: seq<string>): FnBuilder
  {
    var f := FnParam(FnTypeParam(NewFn("read"), "R", Some(p.facts.read)), "rd: &mut " + p.facts.reader + "<R>");
    FnBody(FnReturns(f, "Result<Self, " + p.facts.error + ">"), ReadBody(a, vs))
  }

  function WriteFn(p: Protocol, a: Atom, vs: seq<string>): FnBuilder
  {
    var f := FnSelfParam(FnTypeParam(NewFn("write"), "W", Some(p.facts.write)), "&self");
    var g := FnParam(FnParam(f, "mapping: &" + p.mapping), "wr: &mut W");
    FnBody(FnReturns(g, "Result<(), " + p.facts.error + ">"), WriteBody(a, vs))
  }

  /** `implement_factual`: `read`, a blank line, `write`, in an impl of the
      facts' `Factual` trait over the protocol mapping. */
  function FactualImpl(p: Protocol, a: Atom): ImplBuilder
  {
    var vs := Variants(KindFuns(a.kind, SchemaFunsOf(p)), p.camel);
    ImplBody(NewImpl(p.facts.factual + "<" + p.mapping + ">", a.name),
      [Text(FnText(ReadFn(p, a, vs))), Text("\n"), Text(FnText(WriteFn(p, a, vs)))])
  }

  function AtomImpl(p: Protocol, a: Atom): ImplBuilder
  {
    ImplBody(NewImpl(AtomTrait + "<ProtocolMapping>", a.name), [Text(FnText(MethodFn(a, SchemaFunsOf(p), p.camel)))])
  }

  /** The enum's variants: each function's variant wrapping the atom of the
      same name in that function's module. */
  function EnumVariants(p: Protocol, a: Atom): (r: seq<string>)
    ensures var fs := KindFuns(a.kind, SchemaFunsOf(p));
      |r| == |fs| && forall k :: 0 <= k < |fs| ==> r[k] == FunVariant(fs[k], p.camel) + "(" + FunModule(fs[k], p.body.stack) + "::" + a.name + ")"
  {
    var fs := KindFuns(a.kind, SchemaFunsOf(p));
    seq(|fs|, k requires 0 <= k < |fs| => FunVariant(fs[k], p.camel) + "(" + FunModule(fs[k], p.body.stack) + "::" + a.name + ")")
  }

  /** The pieces of an atom, written one after another. */
  function AtomPieces(p: Protocol, a: Atom): seq<string>
  {
    [ DeriveText(DeriveDebug(DeriveClone(NewDerive()))),
      AllowText(Unused(NonCamelCase(NewAllow()))),
      EnumText(true, a.name, [], EnumVariants(p, a)),
      ImplText(AtomImpl(p, a)),
      ImplText(FactualImpl(p, a)) ]
  }

  function AtomText(p: Protocol, a: Atom): string
  {
    RenderOut(0, NeedIndent, Texts(AtomPieces(p, a)))
  }

  /** An atom is its derive line, its allow line, the enum, the `Atom` impl
      and the `Factual` impl, in that order. */
  lemma AtomLayout(p: Protocol, a: Atom)
    ensures AtomText(p, a) == Concat(AtomPieces(p, a))
  {
    TextsFlat(NeedIndent, AtomPieces(p, a));
  }

  /** The enum has one variant per function of the atom's kind, and the
      `read` and `write` arms follow the same functions in the same order:
      arm k of each is the enum's k-th variant with index k. */
  lemma AtomAgrees(p: Protocol, a: Atom, k: nat)
    requires k < |KindFuns(a.kind, SchemaFunsOf(p))|
    ensures var fs := KindFuns(a.kind, SchemaFunsOf(p));
      var vs := Variants(fs, p.camel);
      |EnumVariants(p, a)| == |ReadArms(a.name, vs)| == |WriteArms(a.name, vs)| == |fs|
      && EnumVariants(p, a)[k] == vs[k] + "(" + FunModule(fs[k], p.body.stack) + "::" + a.name + ")"
      && ReadArms(a.name, vs)[k] == ReadArm(a.name, k, vs[k])
      && WriteArms(a.name, vs)[k] == WriteArm(a.name, k, vs[k])
  {
  }

  // `write_specializations`

  function CallableLines(): seq<string>
  {
    ["fn upcast_params(self) -> Params;", "fn downcast_results(results: Results) -> Option<R>;"]
  }

  function ImplementableLines(): seq<string>
  {
    ["fn method() -> &'static str;", "fn downcast_params(params: Params) -> Option<P>;", "fn upcast_results(self) -> Results;"]
  }

  /** A line, a block on the next line and a blank line. */
  function TraitCmds(h: string, ls: seq<string>): seq<Cmd>
  {
    LineCmds(h) + BlockCmds(LinesCmds(ls)) + [Text("\n")]
  }

  /** `Slottable`: its `where` bound one level deeper, then its block. */
  function SlottableCmds(): seq<Cmd>
  {
    LineCmds("#[derive(Clone, Copy)]") + LineCmds("pub struct Slottable<P, R>") + LineCmds("where")
      + [Nested(LineCmds("R: Implementable<P>,"))]
      + BlockCmds(LineCmds("pub phantom: std::marker::PhantomData<(P, R)>,")) + [Text("\n")]
  }

  function SpecializationCmds(quadruplet: string): seq<Cmd>
  {
    (LineCmds("pub type Caller = " + Lavish + "::Caller<" + quadruplet + ">;")
      + LineCmds("pub type Handler<CL> = " + Lavish + "::Handler<CL, " + quadruplet + ">;")
      + TraitCmds("pub trait Callable<R>", CallableLines())
      + TraitCmds("pub trait Implementable<P>", ImplementableLines()))
      + SlottableCmds()
  }

  /** A trait is its head line, then " {" on a line of its own at the same
      column (the head line has already ended), the methods one level
      deeper, "}" and a blank line. */
  lemma TraitLayout(indent: nat, h: string, ls: seq<string>)
    requires '\n' !in h
    requires forall k :: 0 <= k < |ls| ==> '\n' !in ls[k]
    ensures RenderOut(indent, NeedIndent, TraitCmds(h, ls))
      == IndentLine(indent, h) + "\n"
        + (IndentLine(indent, " {") + "\n" + LinesText(indent + IndentWidth, ls) + IndentLine(indent, "}") + "\n")
        + "\n"
    ensures RenderEnd(NeedIndent, TraitCmds(h, ls)) == NeedIndent
  {
    var block := BlockCmds(LinesCmds(ls));
    ThenBlank(indent, LineCmds(h) + block);
    OneLine(indent, h);
    AppendAtLineStart(indent, LineCmds(h), block);
    LinesAround(indent, " {", LinesCmds(ls), "}");
    LinesLayout(indent + IndentWidth, ls);
  }

  /** The specialisations end at the start of a line. */
  lemma SpecializationEnds(quadruplet: string)
    ensures RenderEnd(NeedIndent, SpecializationCmds(quadruplet)) == NeedIndent
  {
    var head := LineCmds("pub type Caller = " + Lavish + "::Caller<" + quadruplet + ">;")
      + LineCmds("pub type Handler<CL> = " + Lavish + "::Handler<CL, " + quadruplet + ">;")
      + TraitCmds("pub trait Callable<R>", CallableLines())
      + TraitCmds("pub trait Implementable<P>", ImplementableLines());
    var body := LineCmds("#[derive(Clone, Copy)]") + LineCmds("pub struct Slottable<P, R>") + LineCmds("where")
      + [Nested(LineCmds("R: Implementable<P>,"))]
      + BlockCmds(LineCmds("pub phantom: std::marker::PhantomData<(P, R)>,"));
    assert SpecializationCmds(quadruplet) == (head + body) + [Text("\n")];
    EndsWithNewline(NeedIndent, head + body);
  }

  // `write_translation_tables`

  /** The slots of the mapping: one per builtin, struct and enum. */
  function BuiltinSlots(): (r: seq<string>)
    ensures |r| == |Builtins| && forall k :: 0 <= k < |r| ==> r[k] == "__" + Builtins[k].1
  {
    seq(|Builtins|, k requires 0 <= k < |Builtins| => "__" + Builtins[k].1)
  }

  function StructSlots(p: Protocol): (r: seq<string>)
    ensures |r| == |p.structs| && forall k :: 0 <= k < |r| ==> r[k] == StructVariant(p.structs[k], p.camel)
  {
    seq(|p.structs|, k requires 0 <= k < |p.structs| => StructVariant(p.structs[k], p.camel))
  }

  function EnumSlots(p: Protocol): (r: seq<string>)
    ensures |r| == |p.enums| && forall k :: 0 <= k < |r| ==> r[k] == p.enumVariant(p.enums[k])
  {
    seq(|p.enums|, k requires 0 <= k < |p.enums| => p.enumVariant(p.enums[k]))
  }

  /** How many offsets each slot's default lists: the functions of the
      builtin's kind, the struct's fields, the enum's variants. */
  function BuiltinCounts(fs: seq<Anchored<FunctionDecl>>): (r: seq<nat>)
    ensures |r| == |Builtins| && forall k :: 0 <= k < |r| ==> r[k] == |KindFuns(Builtins[k].0, fs)|
  {
    seq(|Builtins|, k requires 0 <= k < |Builtins| => |KindFuns(Builtins[k].0, fs)|)
  }

  function StructCounts(p: Protocol): (r: seq<nat>)
    ensures |r| == |p.structs| && forall k :: 0 <= k < |r| ==> r[k] == |p.structs[k].inner.fields|
  {
    seq(|p.structs|, k requires 0 <= k < |p.structs| => |p.structs[k].inner.fields|)
  }

  function EnumCounts(p: Protocol): (r: seq<nat>)
    ensures |r| == |p.enums| && forall k :: 0 <= k < |r| ==> r[k] == |p.enums[k].inner.variants|
  {
    seq(|p.enums|, k requires 0 <= k < |p.enums| => |p.enums[k].inner.variants|)
  }

  function FieldLines(slots: seq<string>): (r: seq<string>)
    ensures |r| == |slots| && forall k :: 0 <= k < |r| ==> r[k] == "pub " + slots[k] + ": TypeMapping,"
  {
    seq(|slots|, k requires 0 <= k < |slots| => "pub " + slots[k] + ": TypeMapping,")
  }

  function MappedLine(slot: string, values: seq<string>): string
  {
    slot + ": TypeMapping::Mapped(OffsetList(vec![" + Join(values, ", ") + "])),"
  }

  function MappedLines(slots: seq<string>, counts: seq<nat>): (r: seq<string>)
    requires |slots| == |counts|
    ensures |r| == |slots| && forall k :: 0 <= k < |r| ==> r[k] == MappedLine(slots[k], Offsets(counts[k]))
  {
    seq(|slots|, k requires 0 <= k < |slots| => MappedLine(slots[k], Offsets(counts[k])))
  }

  /** The fields of `ProtocolMapping`. */
  function MappingFields(p: Protocol): seq<string>
  {
    (["// builtins"] + FieldLines(BuiltinSlots()))
      + ((["// structs"] + FieldLines(StructSlots(p))) + (["// enums"] + FieldLines(EnumSlots(p))))
  }

  /** The lines of `default`'s `Self { ... }`. */
  function DefaultLines(p: Protocol): seq<string>
  {
    (["// builtins"] + MappedLines(BuiltinSlots(), BuiltinCounts(SchemaFunsOf(p))))
      + ((["// structs"] + MappedLines(StructSlots(p), StructCounts(p)))
        + (["// enums"] + MappedLines(EnumSlots(p), EnumCounts(p))))
  }

  function DefaultFn(p: Protocol): FnBuilder
  {
    FnBody(FnReturns(NewFn("default"), "Self"), [Text("Self")] + BlockCmds(LinesCmds(DefaultLines(p))))
  }

  function TablesCmds(p: Protocol): seq<Cmd>
  {
    LineCmds("use " + p.facts.lib + "::{OffsetList, TypeMapping};")
      + [Text(DeriveText(DeriveDebug(NewDerive())))]
      + ([Text("pub struct ProtocolMapping")] + BlockCmds(LinesCmds(MappingFields(p))) + [Text("\n")])
      + ([Text("impl Default for ProtocolMapping")] + BlockCmds([Text(FnText(DefaultFn(p)))]))
      + LineCmds("impl " + p.facts.lib + "::Mapping for ProtocolMapping {}")
  }

  /** Line k of the first commented section. */
  lemma FirstSectionLine(c: string, lines: seq<string>, tail: seq<string>, k: nat)
    requires k < |lines|
    ensures (([c] + lines) + tail)[1 + k] == lines[k]
  {
  }

  /** Line k of a commented section, inside a list of sections. */
  lemma SectionLine(head: seq<string>, c: string, lines: seq<string>, tail: seq<string>, k: nat)
    requires k < |lines|
    ensures (head + (([c] + lines) + tail))[|head| + 1 + k] == lines[k]
  {
  }

  /** The mapping's slot for an atom lists the offsets 0 up to n - 1, where
      n is the number of `read` and `write` arms of that atom, and the struct
      declares that slot on the same line of its own block: every index the
      atom writes has its offset, and `write`'s `mapping.__<name>` exists. */
  lemma BuiltinDefaultsMatchArms(p: Protocol, k: nat)
    requires k < |Builtins|
    ensures var a := Atoms()[k];
      var vs := Variants(KindFuns(a.kind, SchemaFunsOf(p)), p.camel);
      DefaultLines(p)[1 + k] == MappedLine("__" + a.name, Offsets(|ReadArms(a.name, vs)|))
      && |ReadArms(a.name, vs)| == |WriteArms(a.name, vs)|
      && MappingFields(p)[1 + k] == "pub " + ("__" + a.name) + ": TypeMapping,"
  {
    BuiltinDefaultLine(p, k);
    BuiltinFieldLine(p, k);
  }

  lemma BuiltinDefaultLine(p: Protocol, k: nat)
    requires k < |Builtins|
    ensures DefaultLines(p)[1 + k] == MappedLine("__" + Builtins[k].1, Offsets(|KindFuns(Builtins[k].0, SchemaFunsOf(p))|))
  {
    var ml := MappedLines(BuiltinSlots(), BuiltinCounts(SchemaFunsOf(p)));
    FirstSectionLine("// builtins", ml,
      (["// structs"] + MappedLines(StructSlots(p), StructCounts(p))) + (["// enums"] + MappedLines(EnumSlots(p), EnumCounts(p))), k);
  }

  lemma BuiltinFieldLine(p: Protocol, k: nat)
    requires k < |Builtins|
    ensures MappingFields(p)[1 + k] == "pub " + ("__" + Builtins[k].1) + ": TypeMapping,"
  {
    var fl := FieldLines(BuiltinSlots());
    FirstSectionLine("// builtins", fl,
      (["// structs"] + FieldLines(StructSlots(p))) + (["// enums"] + FieldLines(EnumSlots(p))), k);
  }

  /** The struct declares, and `default` initialises, each struct's slot on
      the same line of its block; the default lists one offset per field. */
  lemma StructSlotAligned(p: Protocol, k: nat)
    requires k < |p.structs|
    ensures var slot := StructVariant(p.structs[k], p.camel);
      MappingFields(p)[5 + k] == "pub " + slot + ": TypeMapping,"
      && DefaultLines(p)[5 + k] == MappedLine(slot, Offsets(|p.structs[k].inner.fields|))
  {
    var fs := SchemaFunsOf(p);
    var dh := ["// builtins"] + MappedLines(BuiltinSlots(), BuiltinCounts(fs));
    var fh := ["// builtins"] + FieldLines(BuiltinSlots());
    SectionLine(dh, "// structs", MappedLines(StructSlots(p), StructCounts(p)), ["// enums"] + MappedLines(EnumSlots(p), EnumCounts(p)), k);
    SectionLine(fh, "// structs", FieldLines(StructSlots(p)), ["// enums"] + FieldLines(EnumSlots(p)), k);
  }

  /** The same for each enum, whose default lists one offset per variant. */
  lemma EnumSlotAligned(p: Protocol, k: nat)
    requires k < |p.enums|
    ensures var slot := p.enumVariant(p.enums[k]);
      MappingFields(p)[6 + |p.structs| + k] == "pub " + slot + ": TypeMapping,"
      && DefaultLines(p)[6 + |p.structs| + k] == MappedLine(slot, Offsets(|p.enums[k].inner.variants|))
  {
    var fs := SchemaFunsOf(p);
    var db, ds := ["// builtins"] + MappedLines(BuiltinSlots(), BuiltinCounts(fs)), ["// structs"] + MappedLines(StructSlots(p), StructCounts(p));
    var fb, fst := ["// builtins"] + FieldLines(BuiltinSlots()), ["// structs"] + FieldLines(StructSlots(p));
    var de, fe := MappedLines(EnumSlots(p), EnumCounts(p)), FieldLines(EnumSlots(p));
    AppendAssoc(db, ds, ["// enums"] + de);
    AppendAssoc(fb, fst, ["// enums"] + fe);
    assert |db + ds| == |fb + fst| == 5 + |p.structs|;
    LastSectionLine(db + ds, "// enums", de, k);
    LastSectionLine(fb + fst, "// enums", fe, k);
  }

  lemma LastSectionLine(head: seq<string>, c: string, lines: seq<string>, k: nat)
    requires k < |lines|
    ensures (head + ([c] + lines))[|head| + 1 + k] == lines[k]
  {
  }

  // `Display for Protocol`

  /** The Display text of every atom, in `write_atoms` order. */
  function AtomTexts(p: Protocol): seq<string>
  {
    seq(|Atoms()|, k requires 0 <= k < |Atoms()| => AtomText(p, Atoms()[k]))
  }

  function AtomsCmds(p: Protocol): seq<Cmd>
  {
    LinesCmds(AtomTexts(p))
  }

  function ProtocolCmds(p: Protocol): seq<Cmd>
  {
    [Text("pub mod protocol")] + BlockCmds(AtomsCmds(p) + SpecializationCmds(p.quadruplet) + TablesCmds(p))
  }

  function ProtocolText(p: Protocol): string
  {
    RenderOut(0, NeedIndent, ProtocolCmds(p))
  }

  /** The protocol module holds, in order, the atoms, the specialisations
      and the translation tables, each starting on a fresh line one level
      in. */
  lemma ProtocolLayout(p: Protocol)
    ensures ProtocolText(p)
      == "pub mod protocol" + " {\n"
        + (RenderOut(IndentWidth, NeedIndent, AtomsCmds(p)) + RenderOut(IndentWidth, NeedIndent, SpecializationCmds(p.quadruplet))
          + RenderOut(IndentWidth, NeedIndent, TablesCmds(p)))
        + "}\n"
  {
    LinesEnd(AtomTexts(p));
    SpecializationEnds(p.quadruplet);
    FlatHeadBlock3("pub mod protocol", AtomsCmds(p), SpecializationCmds(p.quadruplet), TablesCmds(p));
  }
}
