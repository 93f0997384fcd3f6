/** The `Atom` and `Protocol` renderers, written the same way in both
    generations' IR (lavish/src/codegen/rust/ir.rs and
    src/codegen/rust/ir.rs): for each kind of message, an untagged enum with
    one variant per function of that kind, and its `lavish_rpc::Atom` impl,
    whose `method` names a variant's function and whose `deserialize` picks
    the variant back from that name.

    The two generations differ only in where a function's kind comes from
    and in the derive line they write; each passes its own (`LavishIr`,
    `NewIr`).  A function is seen here through what the renderers read of
    it: its kind and its tokens. */
module IrAtoms {
  import opened Common
  import opened LavishOutput
  import opened Layout
  import opened RustLang
  import opened IrNames

  datatype FunKind = Request | Notification

  /** What the atom renderers read of a `Fun`. */
  datatype AtomFun = AtomFun(kind: FunKind, tokens: seq<string>)

  /** An atom: the enum's name, the kind of the functions it holds, and how
      deep it sits below the generated root. */
  datatype Atom = Atom(name: string, kind: FunKind, depth: nat)

  /** `Atom::funs`: the functions of one kind, in order. */
  function OfKind(kind: FunKind, fs: seq<AtomFun>): (r: seq<AtomFun>)
    ensures forall g :: g in r <==> g in fs && g.kind == kind
    ensures |r| <= |fs|
  {
    if fs == [] then []
    else
      var init := OfKind(kind, fs[..|fs| - 1]);
      var last := fs[|fs| - 1];
      assert fs == fs[..|fs| - 1] + [last];
      if last.kind == kind then init + [last] else init
  }

  /** Filtering keeps the relative order of the functions. */
  lemma {:induction false} OfKindAppend(kind: FunKind, a: seq<AtomFun>, b: seq<AtomFun>)
    ensures OfKind(kind, a + b) == OfKind(kind, a) + OfKind(kind, b)
    decreases |b|
  {
    if b == [] {
      assert a + b == a;
    } else {
      var init := b[..|b| - 1];
      assert (a + b)[..|a + b| - 1] == a + init;
      assert (a + b)[|a + b| - 1] == b[|b| - 1];
      OfKindAppend(kind, a, init);
    }
  }

  /** Every function lands in the atoms of exactly one kind. */
  lemma {:induction false} KindsPartition(fs: seq<AtomFun>)
    ensures |OfKind(Request, fs)| + |OfKind(Notification, fs)| == |fs|
  {
    if fs != [] {
      KindsPartition(fs[..|fs| - 1]);
    }
  }

  /** `Atom::root`: one "super::" per level between the atom and the
      generated root. */
  function AtomRoot(a: Atom): (r: string)
    ensures |r| == 7 * a.depth
  {
    Repeat("super::", a.depth)
  }

  // `implement_method`

  /** The string literal naming a function on the wire: its rpc name,
      Debug-quoted. */
  function MethodLiteral(g: AtomFun): string
  {
    Quoted(RpcName(g.tokens))
  }

  /** "Atom::variant(_) => \"rpc.name\"," */
  function MethodArm(a: Atom, g: AtomFun): string
  {
    a.name + "::" + Variant(g.tokens) + "(_) => " + MethodLiteral(g) + ","
  }

  function MethodArms(a: Atom, gs: seq<AtomFun>): (r: seq<string>)
    ensures |r| == |gs| && forall k :: 0 <= k < |gs| ==> r[k] == MethodArm(a, gs[k])
  {
    if gs == [] then [] else MethodArms(a, gs[..|gs| - 1]) + [MethodArm(a, gs[|gs| - 1])]
  }

  function PanicLine(a: Atom): string
  {
    "panic!(\"no variants for " + a.name + "\")"
  }

  /** The body of `method`: a panic when the atom has no functions,
      otherwise a `match self` with one arm per function. */
  function MethodBody(a: Atom, fs: seq<AtomFun>): seq<Cmd>
  {
    var gs := OfKind(a.kind, fs);
    if gs == [] then LineCmds(PanicLine(a))
    else [Text("match self")] + BlockCmds(LinesCmds(MethodArms(a, gs)))
  }

  function MethodFn(a: Atom, fs: seq<AtomFun>): FnBuilder
  {
    FnBody(FnReturns(FnSelfParam(NewFn("method"), "&self"), "&'static str"), MethodBody(a, fs))
  }

  /** `method` panics exactly when no function has the atom's kind. */
  lemma MethodPanicsIffEmpty(a: Atom, fs: seq<AtomFun>)
    ensures MethodBody(a, fs) == LineCmds(PanicLine(a)) <==> OfKind(a.kind, fs) == []
  {
    if OfKind(a.kind, fs) != [] {
      assert MethodBody(a, fs)[0] == Text("match self");
      assert PanicLine(a)[0] == 'p';
    }
  }

  // `implement_deserialize`

  /** "Atom::variant(__DS::<root qname::Atom>(de)?)" */
  function DeserializeCall(a: Atom, g: AtomFun): string
  {
    a.name + "::" + Variant(g.tokens) + "(__DS::<" + AtomRoot(a) + QualifiedName(g.tokens) + "::" + a.name + ">(de)?)"
  }

  /** One arm: the literal on its own line, then `Ok(...)` one level deeper
      in a child scope. */
  function DeserializeArm(a: Atom, g: AtomFun): seq<Cmd>
  {
    LineCmds(MethodLiteral(g) + " => ")
      + [Nested([Text("Ok"), Text(ListText(Round, false, [DeserializeCall(a, g)])), Text(","), Text("\n")])]
  }

  /** The arms in order: arm `k` takes three commands and opens with the
      literal of the `k`-th function and builds that function's variant. */
  function DeserializeArms(a: Atom, gs: seq<AtomFun>): (r: seq<Cmd>)
    ensures |r| == 3 * |gs|
    ensures forall k :: 0 <= k < |gs| ==> r[3 * k] == Text(MethodLiteral(gs[k]) + " => ")
    ensures forall k :: 0 <= k < |gs| ==> r[3 * k + 2] == DeserializeArm(a, gs[k])[2]
  {
    if gs == [] then []
    else
      var init := DeserializeArms(a, gs[..|gs| - 1]);
      var r := init + DeserializeArm(a, gs[|gs| - 1]);
      assert forall k :: 0 <= k < |gs| - 1 ==> gs[..|gs| - 1][k] == gs[k];
      r
  }

  const UnknownMethod: string := "unknown method: {}"

  /** The catch-all arm: "_ =>" and, one level deeper, the error naming the
      method.  Nothing ends its line, so the block's "}" follows on it. */
  function ErrCmds(): seq<Cmd>
  {
    LineCmds("_ =>")
      + [Nested([Text("Err"), Text("("), Text("lavish_rpc::erased_serde::Error::custom"), Text("("),
                 Text("format!"), Text(ListText(Round, false, [Quoted(UnknownMethod), "method"])),
                 Text(")"), Text(")")])]
  }

  const UseDeserialize: string := "use lavish_rpc::erased_serde::deserialize as __DS;"
  const UseError: string := "use lavish_rpc::serde::de::Error;"

  function DeserializeBody(a: Atom, fs: seq<AtomFun>): seq<Cmd>
  {
    LinesCmds([UseDeserialize, UseError]) + [Text("\n")]
      + [Text("match method")] + BlockCmds(DeserializeArms(a, OfKind(a.kind, fs)) + ErrCmds())
  }

  function DeserializeFn(a: Atom, fs: seq<AtomFun>): FnBuilder
  {
    var f := FnParam(FnParam(NewFn("deserialize"), "method: &str"), "de: &mut lavish_rpc::erased_serde::Deserializer");
    FnBody(FnReturns(f, "lavish_rpc::erased_serde::Result<Self>"), DeserializeBody(a, fs))
  }

  /** Which arm of the generated `match method` a method name selects:
      the first whose literal it is, or none (the `_` arm, an error). */
  function Dispatch(gs: seq<AtomFun>, lit: string): (r: Option<nat>)
    ensures r.Some? ==> r.value < |gs| && MethodLiteral(gs[r.value]) == lit
    ensures r.Some? ==> forall j :: 0 <= j < r.value ==> MethodLiteral(gs[j]) != lit
    ensures r.None? <==> forall j :: 0 <= j < |gs| ==> MethodLiteral(gs[j]) != lit
  {
    if gs == [] then None
    else if MethodLiteral(gs[0]) == lit then Some(0)
    else
      assert forall j :: 0 <= j < |gs| - 1 ==> gs[1..][j] == gs[j + 1];
      match Dispatch(gs[1..], lit)
      case None => None
      case Some(k) => Some(k + 1)
  }

  /** Distinct strings quote to distinct literals. */
  lemma QuotedInjective(x: string, y: string)
    requires Quoted(x) == Quoted(y)
    ensures x == y
  {
    QuotedReadsBack(x);
    QuotedReadsBack(y);
  }

  ghost predicate DistinctRpcNames(gs: seq<AtomFun>)
  {
    forall i, j :: 0 <= i < j < |gs| ==> RpcName(gs[i].tokens) != RpcName(gs[j].tokens)
  }

  /** The name `method` gives the variant of the `k`-th function selects
      the `k`-th arm of `deserialize`, which rebuilds that variant: the two
      halves of the impl agree as long as rpc names are distinct. */
  lemma DispatchRoundTrip(gs: seq<AtomFun>, k: nat)
    requires DistinctRpcNames(gs) && k < |gs|
    ensures Dispatch(gs, MethodLiteral(gs[k])) == Some(k)
  {
    var r := Dispatch(gs, MethodLiteral(gs[k]));
    var j := r.value;
    if j != k {
      QuotedInjective(RpcName(gs[j].tokens), RpcName(gs[k].tokens));
    }
  }

  // `Display for Atom`

  /** "variant(root qname::Atom)" */
  function EnumVariant(a: Atom, g: AtomFun): string
  {
    Variant(g.tokens) + "(" + AtomRoot(a) + QualifiedName(g.tokens) + "::" + a.name + ")"
  }

  function EnumVariants(a: Atom, gs: seq<AtomFun>): (r: seq<string>)
    ensures |r| == |gs| && forall k :: 0 <= k < |gs| ==> r[k] == EnumVariant(a, gs[k])
  {
    if gs == [] then [] else EnumVariants(a, gs[..|gs| - 1]) + [EnumVariant(a, gs[|gs| - 1])]
  }

  function AtomImpl(a: Atom, fs: seq<AtomFun>): ImplBuilder
  {
    ImplBody(NewImpl("lavish_rpc::Atom", a.name), [Text(FnText(MethodFn(a, fs))), Text(FnText(DeserializeFn(a, fs)))])
  }

  const AtomAllow: string := AllowText(Unused(NonCamelCase(NewAllow())))

  /** The five writes of `Display for Atom`: the derive line (which each
      generation supplies), the allow and untagged attributes, the enum and
      its impl. */
  function AtomPieces(derive: string, a: Atom, fs: seq<AtomFun>): seq<string>
  {
    [derive, AtomAllow, SerdeUntagged, EnumText(true, a.name, [], EnumVariants(a, OfKind(a.kind, fs))), ImplText(AtomImpl(a, fs))]
  }

  function AtomText(derive: string, a: Atom, fs: seq<AtomFun>): string
  {
    RenderOut(0, NeedIndent, Texts(AtomPieces(derive, a, fs)))
  }

  /** An atom is its five pieces, one after another. */
  lemma AtomLayout(derive: string, a: Atom, fs: seq<AtomFun>)
    ensures AtomText(derive, a, fs) == Concat(AtomPieces(derive, a, fs))
  {
    TextsFlat(NeedIndent, AtomPieces(derive, a, fs));
  }

  // `Display for Protocol`

  /** The three atoms of a protocol, one level below it. */
  function ProtocolAtoms(depth: nat): (r: seq<Atom>)
    ensures |r| == 3 && forall k :: 0 <= k < 3 ==> r[k].depth == depth + 1
  {
    [Atom("Params", Request, depth + 1), Atom("Results", Request, depth + 1), Atom("NotificationParams", Notification, depth + 1)]
  }

  function AtomLine(derive: string, a: Atom, fs: seq<AtomFun>): seq<Cmd>
  {
    LineCmds(AtomText(derive, a, fs))
  }

  function ProtocolCmds(derive: string, depth: nat, fs: seq<AtomFun>): seq<Cmd>
  {
    var atoms := ProtocolAtoms(depth);
    [Text("pub mod protocol")]
      + BlockCmds(AtomLine(derive, atoms[0], fs) + AtomLine(derive, atoms[1], fs) + AtomLine(derive, atoms[2], fs))
  }

  function ProtocolText(derive: string, depth: nat, fs: seq<AtomFun>): string
  {
    RenderOut(0, NeedIndent, ProtocolCmds(derive, depth, fs))
  }

  /** The protocol module holds the Params, Results and NotificationParams
      atoms in that order, each written as a line one level in. */
  lemma ProtocolLayout(derive: string, depth: nat, fs: seq<AtomFun>)
    ensures var atoms := ProtocolAtoms(depth);
      ProtocolText(derive, depth, fs)
        == "pub mod protocol" + " {\n"
          + (RenderOut(IndentWidth, NeedIndent, AtomLine(derive, atoms[0], fs))
            + RenderOut(IndentWidth, NeedIndent, AtomLine(derive, atoms[1], fs))
            + RenderOut(IndentWidth, NeedIndent, AtomLine(derive, atoms[2], fs)))
          + "}\n"
  {
    var atoms := ProtocolAtoms(depth);
    LineEnds(IndentWidth, NeedIndent, AtomText(derive, atoms[0], fs));
    LineEnds(IndentWidth, NeedIndent, AtomText(derive, atoms[1], fs));
    FlatHeadBlock3("pub mod protocol", AtomLine(derive, atoms[0], fs), AtomLine(derive, atoms[1], fs), AtomLine(derive, atoms[2], fs));
  }

  /** Requests are listed in both the Params and the Results atom, and
      notifications only in NotificationParams. */
  lemma ProtocolCovers(depth: nat, fs: seq<AtomFun>, g: AtomFun)
    requires g in fs
    ensures var atoms := ProtocolAtoms(depth);
      (g in OfKind(atoms[0].kind, fs) <==> g.kind == Request)
      && (g in OfKind(atoms[1].kind, fs) <==> g.kind == Request)
      && (g in OfKind(atoms[2].kind, fs) <==> g.kind == Notification)
  {
  }
}
