/** The schema and rules grammar of the newer generation (src/parser/mod.rs),
    rule by rule, over the same nom outcomes as the older grammar
    (`NomChars`).  It differs from the older one in the `target rust` body,
    the lower-case type keywords with sized integers, and the one side
    keyword, `server` or `client`, that every function and notification
    starts with.

    A rule handed the whole source sees, at offset `p`, the span
    `p .. |input|`; spans built here use that. */
module NewParser {
  import opened Common
  import opened NewSpan
  import opened NewAst
  import opened NomChars

  // Identifiers and string literals

  /** `id`: a non-empty maximal run of letters, digits and '_'. */
  function Id(src: Source, p: nat): (r: Res<Identifier>)
    requires p <= |src.input|
    ensures !r.Failure?
    ensures r.Error? <==> p == |src.input| || !IsIdChar(src.input[p])
    ensures r.Done? ==> (p < r.pos <= |src.input| && r.value.text == src.input[p..r.pos]
      && r.value.span == Span(src, p, r.pos - p)
      && (r.pos < |src.input| ==> !IsIdChar(src.input[r.pos])))
  {
    var q := TakeWhile(src.input, p, IdChar);
    if q == p then Error([(p, NomKind("TakeWhile1"))])
    else Done(q, Identifier(Span(src, p, q - p), src.input[p..q]))
  }

  /** `stringlit`: a double quote, a non-empty run of letters, digits and
      "_-./", a double quote; no escapes.  The location is the empty span
      before the opening quote. */
  function StringLit(src: Source, p: nat): (r: Res<StringLiteral>)
    requires p <= |src.input|
    ensures !r.Failure?
    ensures r.Done? ==> (p + 3 <= r.pos <= |src.input|
      && src.input[p] == '"' && src.input[r.pos - 1] == '"'
      && r.value == StringLiteral(Span(src, p, 0), src.input[p + 1..r.pos - 1]))
  {
    var s := src.input;
    if !(p < |s| && s[p] == '"') then Error([(p, CharKind('"'))])
    else
      var q := TakeWhile(s, p + 1, LitChar);
      if q == p + 1 then Error([(p + 1, NomKind("TakeWhile1"))])
      else if !(q < |s| && s[q] == '"') then Error([(q, CharKind('"'))])
      else Done(q + 1, StringLiteral(Span(src, p, 0), s[p + 1..q]))
  }

  // Comments

  /** `many0(comment_line)` */
  function CommentLines(s: string, p: nat): (r: Parsed<seq<string>>)
    requires p <= |s|
    ensures p <= r.pos <= |s|
    ensures r.value == [] ==> r.pos == p
    ensures r.value != [] ==> r.pos < |s| && s[r.pos] == '\n'
    decreases |s| - p
  {
    var l := CommentLine(s, p);
    if l.Done? then
      var rest := CommentLines(s, l.pos);
      Parsed(rest.pos, [l.value] + rest.value)
    else Parsed(p, [])
  }

  /** `opt(comment)`, a comment being one or more comment lines. */
  function OptComment(s: string, p: nat): (r: Parsed<Option<Comment>>)
    requires p <= |s|
    ensures p <= r.pos <= |s|
    ensures r.value.None? <==> r.pos == p
    ensures r.value.Some? ==> r.pos < |s| && s[r.pos] == '\n'
  {
    var l := CommentLine(s, p);
    if l.Done? then
      var rest := CommentLines(s, l.pos);
      Parsed(rest.pos, Some(Comment([l.value] + rest.value)))
    else Parsed(p, None)
  }

  // Rules files

  /** `target`: the keyword, then, committed, one of the three targets. */
  function TargetP(src: Source, p: nat): (r: Res<Target>)
    requires p <= |src.input|
    ensures r.Done? ==> p < r.pos <= |src.input|
  {
    var t := SpacedTag(src.input, p, "target");
    if !t.Done? then Propagate(t)
    else Commit(TargetName(src, t.pos), t.pos, "target directive")
  }

  /** `alt((rust_target, go_target, ts_target))`: a failure inside the
      `rust` target is not recovered from. */
  function TargetName(src: Source, i: nat): (r: Res<Target>)
    requires i <= |src.input|
    ensures r.Done? ==> i < r.pos <= |src.input|
  {
    var s := src.input;
    var rust := RustTargetP(s, i);
    if rust.Done? then Done(rust.pos, Rust(rust.value))
    else if rust.Failure? then Propagate(rust)
    else
      var go := SpacedTag(s, i, "go");
      if go.Done? then Done(go.pos, Go)
      else
        var ts := SpacedTag(s, i, "typescript");
        if ts.Done? then Done(ts.pos, TypeScript)
        else Error(ts.errs + [(i, NomKind("Alt"))])
  }

  /** `rust_target`: the keyword, then, committed, an optional braced list
      of items, which `RustTarget::new` folds. */
  function RustTargetP(s: string, i: nat): (r: Res<RustTarget>)
    requires i <= |s|
    ensures r.Done? ==> i < r.pos <= |s|
  {
    var t := SpacedTag(s, i, "rust");
    if !t.Done? then Propagate(t)
    else Commit(RustBody(s, t.pos), t.pos, "rust target")
  }

  /** `opt(delimited(spaced(char('{')), rust_target_body,
      spaced(char('}'))))`: a body that is not closed reads as no body. */
  function RustBody(s: string, j: nat): (r: Res<RustTarget>)
    requires j <= |s|
    ensures !r.Error?
    ensures r.Done? ==> j <= r.pos <= |s|
  {
    var o := SpacedChar(s, j, '{');
    if !o.Done? then Done(j, RustTargetOf([]))
    else
      var items := RustItems(s, o.pos);
      if !items.Done? then Propagate(items)
      else
        var c := SpacedChar(s, items.pos, '}');
        if c.Done? then Done(c.pos, RustTargetOf(items.value)) else Done(j, RustTargetOf([]))
  }

  /** `many0(spaced(rust_target_item))` */
  function RustItems(s: string, j: nat): (r: Res<seq<RustTargetItem>>)
    requires j <= |s|
    ensures !r.Error?
    ensures r.Done? ==> j <= r.pos <= |s|
    decreases |s| - j
  {
    var it := WrapperP(s, Sp(s, j));
    if it.Error? then Done(j, [])
    else if it.Failure? then Propagate(it)
    else
      var rest := RustItems(s, Sp(s, it.pos));
      if !rest.Done? then rest else Done(rest.pos, [Wrapper(it.value)] + rest.value)
  }

  /** `rust_target_wrapper`: the keyword, then, committed, `=` and one of
      `none`, `mod`, `lib`. */
  function WrapperP(s: string, i: nat): (r: Res<RustTargetWrapper>)
    requires i <= |s|
    ensures r.Done? ==> i < r.pos <= |s|
  {
    var t := SpacedTag(s, i, "wrapper");
    if !t.Done? then Propagate(t)
    else Commit(WrapperValue(s, t.pos), t.pos, "rust target wrapper")
  }

  /** `preceded(spaced(char('=')), alt((tag("none"), tag("mod"),
      tag("lib"))))` */
  function WrapperValue(s: string, k: nat): (r: Res<RustTargetWrapper>)
    requires k <= |s|
    ensures !r.Failure?
    ensures r.Done? ==> k < r.pos <= |s|
  {
    var eq := SpacedChar(s, k, '=');
    if !eq.Done? then Propagate(eq)
    else
      var a := eq.pos;
      if MatchesAt(s, a, "none") then Done(a + 4, NoWrapper)
      else if MatchesAt(s, a, "mod") then Done(a + 3, Mod)
      else if MatchesAt(s, a, "lib") then Done(a + 3, Lib)
      else Error([(a, NomKind("Tag")), (a, NomKind("Alt"))])
  }

  /** `from`: the keyword, then, committed, a string literal. */
  function From(src: Source, p: nat): (r: Res<FromDirective>)
    requires p <= |src.input|
    ensures r.Done? ==> p < r.pos <= |src.input|
  {
    var t := SpacedTag(src.input, p, "from");
    if !t.Done? then Propagate(t)
    else
      var lit := Commit(StringLit(src, Sp(src.input, t.pos)), t.pos, "from directive");
      if !lit.Done? then Propagate(lit)
      else Done(Sp(src.input, lit.pos), FromDirective(lit.value))
  }

  /** `spaced(opt(from))` */
  function OptFrom(src: Source, p: nat): (r: Res<Option<FromDirective>>)
    requires p <= |src.input|
    ensures !r.Error?
    ensures r.Done? ==> p <= r.pos <= |src.input|
  {
    var a := Sp(src.input, p);
    var f := From(src, a);
    if f.Done? then Done(Sp(src.input, f.pos), Some(f.value))
    else if f.Error? then Done(a, None)
    else Propagate(f)
  }

  /** `tuple((spaced(id), spaced(opt(from))))`, shared by `build` and
      `import`. */
  function NamedFrom(src: Source, i: nat): (r: Res<(Identifier, Option<FromDirective>)>)
    requires i <= |src.input|
    ensures r.Done? ==> i < r.pos <= |src.input|
  {
    var n := Id(src, Sp(src.input, i));
    if !n.Done? then Propagate(n)
    else
      var f := OptFrom(src, Sp(src.input, n.pos));
      if !f.Done? then Propagate(f) else Done(f.pos, (n.value, f.value))
  }

  /** `build`: comment lines, the keyword, then, committed, a name and an
      optional `from`. */
  function BuildP(src: Source, p: nat): (r: Res<Build>)
    requires p <= |src.input|
    ensures r.Done? ==> p < r.pos <= |src.input|
  {
    var t := SpacedTag(src.input, SpacedCommentLines(src.input, p), "build");
    if !t.Done? then Propagate(t)
    else
      var b := Commit(NamedFrom(src, t.pos), t.pos, "build directive");
      if !b.Done? then Propagate(b) else Done(b.pos, Build(b.value.0, b.value.1))
  }

  /** `many0(spaced(build))` */
  function Builds(src: Source, p: nat): (r: Res<seq<Build>>)
    requires p <= |src.input|
    ensures !r.Error?
    ensures r.Done? ==> p <= r.pos <= |src.input|
    decreases |src.input| - p
  {
    var b := BuildP(src, Sp(src.input, p));
    if b.Error? then Done(p, [])
    else if b.Failure? then Propagate(b)
    else
      var rest := Builds(src, Sp(src.input, b.pos));
      if !rest.Done? then rest else Done(rest.pos, [b.value] + rest.value)
  }

  /** `rules`: one target, any number of builds, then only whitespace and
      comment lines up to the end of the input (`all_consuming`). */
  function RulesP(src: Source): (r: Res<Rules>)
    ensures r.Done? ==> r.pos == |src.input|
    ensures r.Error? ==> (|r.errs| == 1
      && (r.errs[0] == (Sp(src.input, 0), NomKind("Tag"))
        || (r.errs[0].1 == NomKind("Eof") && Leftover(src.input, r.errs[0].0))))
  {
    var t := TargetP(src, 0);
    if !t.Done? then Propagate(t)
    else
      var b := Builds(src, Sp(src.input, t.pos));
      if !b.Done? then Propagate(b)
      else
        var e := Trailer(src.input, b.pos);
        if e == |src.input| then Done(e, Rules(Span(src, 0, 0), t.value, b.value))
        else Error([(e, NomKind("Eof"))])
  }

  // Schemas: imports

  /** `import`: the keyword, then, committed, a name and an optional
      `from`. */
  function ImportP(src: Source, p: nat): (r: Res<Import>)
    requires p <= |src.input|
    ensures r.Done? ==> p < r.pos <= |src.input|
  {
    var t := SpacedTag(src.input, p, "import");
    if !t.Done? then Propagate(t)
    else
      var b := Commit(NamedFrom(src, t.pos), t.pos, "import");
      if !b.Done? then Propagate(b) else Done(b.pos, Import(b.value.0, b.value.1))
  }

  /** `many0(spaced(import))` */
  function Imports(src: Source, p: nat): (r: Res<seq<Import>>)
    requires p <= |src.input|
    ensures !r.Error?
    ensures r.Done? ==> p <= r.pos <= |src.input|
    decreases |src.input| - p
  {
    var m := ImportP(src, Sp(src.input, p));
    if m.Error? then Done(p, [])
    else if m.Failure? then Propagate(m)
    else
      var rest := Imports(src, Sp(src.input, m.pos));
      if !rest.Done? then rest else Done(rest.pos, [m.value] + rest.value)
  }

  // Types

  /** The base types, in the order `basetyp` tries them. */
  const BaseNames: seq<(string, BaseType)> := [
    ("bool", Bool), ("i8", I8), ("i16", I16), ("i32", I32), ("i64", I64),
    ("u8", U8), ("u16", U16), ("u32", U32), ("u64", U64), ("f32", F32), ("f64", F64),
    ("string", String), ("data", Data), ("timestamp", Timestamp)]

  /** The first base type name, from the `k`-th on, that stands at `a`. */
  function BaseTag(s: string, a: nat, k: nat): (r: Option<(string, BaseType)>)
    requires a <= |s| && k <= |BaseNames|
    ensures r.Some? ==> r.value in BaseNames && MatchesAt(s, a, r.value.0)
    decreases |BaseNames| - k
  {
    if k == |BaseNames| then None
    else if MatchesAt(s, a, BaseNames[k].0) then Some(BaseNames[k])
    else BaseTag(s, a, k + 1)
  }

  /** `basetyp`: `spaced` around the keywords; the span is the keyword's. */
  function BaseTyp(src: Source, p: nat): (r: Res<Type>)
    requires p <= |src.input|
    ensures !r.Failure?
    ensures r.Done? ==> p < r.pos <= |src.input| && r.value.kind.Base?
  {
    var a := Sp(src.input, p);
    match BaseTag(src.input, a, 0)
    case None => Error([(a, NomKind("Tag")), (a, NomKind("Alt"))])
    case Some(b) => Done(Sp(src.input, a + |b.0|), Type(Span(src, a, |b.0|), Base(b.1)))
  }

  /** `usertyp`: a non-empty run of letters, digits, '_' and '.'. */
  function UserTyp(src: Source, p: nat): (r: Res<Type>)
    requires p <= |src.input|
    ensures !r.Failure?
    ensures r.Done? ==> p < r.pos <= |src.input| && r.value == Type(Span(src, p, r.pos - p), User)
  {
    var q := TakeWhile(src.input, p, UserChar);
    if q == p then Error([(p, NomKind("TakeWhile1"))]) else Done(q, Type(Span(src, p, q - p), User))
  }

  /** `kw < typ >`, as read by `arraytyp` and `optiontyp`: the inner type. */
  function Wrapped(src: Source, p: nat, kw: string): (r: Res<Type>)
    requires p <= |src.input| && |kw| > 0
    ensures r.Done? ==> p < r.pos <= |src.input|
    decreases |src.input| - p, 0
  {
    var t := SpacedTag(src.input, p, kw);
    if !t.Done? then Propagate(t)
    else
      var l := SpacedChar(src.input, t.pos, '<');
      if !l.Done? then Propagate(l)
      else
        var inner := Typ(src, l.pos);
        if !inner.Done? then inner
        else
          var g := SpacedChar(src.input, inner.pos, '>');
          if !g.Done? then Propagate(g) else Done(g.pos, inner.value)
  }

  /** `maptyp`: `map < typ , typ >`, the comma straight after the key type
      and its trailing whitespace. */
  function MapTyp(src: Source, p: nat): (r: Res<Type>)
    requires p <= |src.input|
    ensures r.Done? ==> p < r.pos <= |src.input| && r.value.kind.Map?
    decreases |src.input| - p, 0
  {
    var s := src.input;
    var t := SpacedTag(s, p, "map");
    if !t.Done? then Propagate(t)
    else
      var l := SpacedChar(s, t.pos, '<');
      if !l.Done? then Propagate(l)
      else
        var k := Typ(src, Sp(s, l.pos));
        if !k.Done? then k
        else
          var c := Sp(s, k.pos);
          if !(c < |s| && s[c] == ',') then Error([(c, CharKind(','))])
          else
            var v := Typ(src, Sp(s, c + 1));
            if !v.Done? then v
            else
              var g := SpacedChar(s, Sp(s, v.pos), '>');
              if !g.Done? then Propagate(g)
              else Done(g.pos, Type(Span(src, p, |s| - p), Map(k.value, v.value)))
  }

  /** `typ`: `map<..>`, `array<..>`, `option<..>`, a base type, then a user
      type, first match wins.  Container types span the rest of the input
      from where they start. */
  function Typ(src: Source, p: nat): (r: Res<Type>)
    requires p <= |src.input|
    ensures r.Done? ==> p < r.pos <= |src.input|
    decreases |src.input| - p, 1
  {
    var s := src.input;
    var m := MapTyp(src, p);
    if !m.Error? then m
    else
      var a := Wrapped(src, p, "array");
      if a.Done? then Done(a.pos, Type(Span(src, p, |s| - p), Array(a.value)))
      else if a.Failure? then a
      else
        var o := Wrapped(src, p, "option");
        if o.Done? then Done(o.pos, Type(Span(src, p, |s| - p), Opt(o.value)))
        else if o.Failure? then o
        else
          var b := BaseTyp(src, p);
          if b.Done? then b
          else
            var u := UserTyp(src, p);
            if u.Done? then u else Error(u.errs + [(p, NomKind("Alt"))])
  }

  // Fields

  /** `field`: an optional comment, a name, then, committed, `: typ`.  The
      location is the empty span where the name starts. */
  function FieldP(src: Source, p: nat): (r: Res<Field>)
    requires p <= |src.input|
    ensures r.Done? ==> p < r.pos <= |src.input|
  {
    var s := src.input;
    var c := OptComment(s, p);
    var l := Sp(s, c.pos);
    var n := Id(src, l);
    if !n.Done? then Propagate(n)
    else
      var q := Sp(s, n.pos);
      var t := Commit(FieldType(src, q), q, "field");
      if !t.Done? then Propagate(t)
      else Done(Sp(s, t.pos), Field(Span(src, l, 0), c.value, n.value, t.value))
  }

  /** `preceded(spaced(char(':')), spaced(typ))` */
  function FieldType(src: Source, q: nat): (r: Res<Type>)
    requires q <= |src.input|
    ensures r.Done? ==> q < r.pos <= |src.input|
  {
    var colon := SpacedChar(src.input, q, ':');
    if !colon.Done? then Propagate(colon)
    else
      var t := Typ(src, Sp(src.input, colon.pos));
      if !t.Done? then t else Done(Sp(src.input, t.pos), t.value)
  }

  /** The fields after the first, each after `spaced(char(','))`; the list
      stops before a comma that no field follows. */
  function MoreFields(src: Source, i: nat): (r: Res<seq<Field>>)
    requires i <= |src.input|
    ensures !r.Error?
    ensures r.Done? ==> i <= r.pos <= |src.input|
    decreases |src.input| - i
  {
    var comma := SpacedChar(src.input, i, ',');
    if !comma.Done? then Done(i, [])
    else
      var f := FieldP(src, comma.pos);
      if f.Error? then Done(i, [])
      else if f.Failure? then Propagate(f)
      else
        var rest := MoreFields(src, f.pos);
        if !rest.Done? then rest else Done(rest.pos, [f.value] + rest.value)
  }

  /** `separated_list(spaced(char(',')), field)` */
  function FieldList(src: Source, p: nat): (r: Res<seq<Field>>)
    requires p <= |src.input|
    ensures !r.Error?
    ensures r.Done? ==> p <= r.pos <= |src.input|
  {
    var f := FieldP(src, p);
    if f.Error? then Done(p, [])
    else if f.Failure? then Propagate(f)
    else
      var rest := MoreFields(src, f.pos);
      if !rest.Done? then rest else Done(rest.pos, [f.value] + rest.value)
  }

  /** `fields`: the list, then an optional trailing comma. */
  function Fields(src: Source, p: nat): (r: Res<seq<Field>>)
    requires p <= |src.input|
    ensures !r.Error?
    ensures r.Done? ==> p <= r.pos <= |src.input|
  {
    var l := FieldList(src, p);
    if !l.Done? then l
    else
      var comma := SpacedChar(src.input, l.pos, ',');
      if comma.Done? then Done(comma.pos, l.value) else l
  }

  /** `delimited(char(open), fields, preceded(sp, char(close)))` */
  function Delimited(src: Source, i: nat, open: char, close: char): (r: Res<seq<Field>>)
    requires i <= |src.input|
    ensures r.Done? ==> i + 2 <= r.pos <= |src.input|
  {
    var s := src.input;
    if !(i < |s| && s[i] == open) then Error([(i, CharKind(open))])
    else
      var f := Fields(src, i + 1);
      if !f.Done? then f
      else
        var c := Sp(s, f.pos);
        if c < |s| && s[c] == close then Done(c + 1, f.value) else Error([(c, CharKind(close))])
  }

  // Functions, structs and namespaces

  /** `side`: `server` or `client`, read where it stands. */
  function SideAt(s: string, a: nat): (r: Res<Side>)
    requires a <= |s|
    ensures !r.Failure?
    ensures r.Done? ==> r.pos == a + 6 <= |s|
    ensures r.Done? ==> (r.value == Server <==> MatchesAt(s, a, "server"))
    ensures r.Error? <==> !MatchesAt(s, a, "server") && !MatchesAt(s, a, "client")
  {
    if MatchesAt(s, a, "server") then Done(a + 6, Server)
    else if MatchesAt(s, a, "client") then Done(a + 6, Client)
    else Error([(a, NomKind("Tag")), (a, NomKind("Alt"))])
  }

  /** `results`: `->`, then, committed, a parenthesised field list. */
  function Results(src: Source, p: nat): (r: Res<seq<Field>>)
    requires p <= |src.input|
    ensures r.Done? ==> p < r.pos <= |src.input|
  {
    var t := SpacedTag(src.input, p, "->");
    if !t.Done? then Propagate(t) else Commit(Delimited(src, t.pos, '(', ')'), t.pos, "result list")
  }

  /** A name and a parenthesised parameter list, each after whitespace. */
  function NameParams(src: Source, i: nat): (r: Res<(Identifier, seq<Field>)>)
    requires i <= |src.input|
    ensures r.Done? ==> i < r.pos <= |src.input|
  {
    var s := src.input;
    var n := Id(src, Sp(s, i));
    if !n.Done? then Propagate(n)
    else
      var a := Sp(s, n.pos);
      var ps := Delimited(src, a, '(', ')');
      if ps.Done? then Done(ps.pos, (n.value, ps.value))
      else if ps.Error? then Error(ps.errs + [(a, ContextKind("parameter list"))])
      else Failure(ps.errs + [(a, ContextKind("parameter list"))])
  }

  /** What follows `fn`: the name and parameters, optional results and an
      optional body. */
  datatype Signature = Signature(name: Identifier, params: seq<Field>, results: Option<seq<Field>>, body: Option<NamespaceBody>)

  /** Where a declaration starts: its comment, its side and the offset after
      its keyword. */
  datatype Head = Head(comment: Option<Comment>, side: Side, at: nat)

  /** The head of a declaration as src/parser/mod.rs:359-360 and 402-403 reads it:
      `opt(comment)`, then `side` with no whitespace before it.  A comment
      stops before its line's '\n', so `side` then always meets that
      newline. */
  function FnHeadAsWritten(src: Source, p: nat, kw: string): (r: Res<Head>)
    requires p <= |src.input| && |kw| > 0
    ensures !r.Failure?
    ensures r.Done? ==> p < r.pos <= |src.input| && r.pos == r.value.at
  {
    var c := OptComment(src.input, p);
    var d := SideAt(src.input, c.pos);
    if !d.Done? then Propagate(d)
    else
      var t := SpacedTag(src.input, d.pos, kw);
      if !t.Done? then Propagate(t)
      else
        var i := Sp(src.input, t.pos);
        Done(i, Head(c.value, d.value, i))
  }

  /** The head of a declaration with the whitespace before `side` read, as
      `structdecl` and `nsdecl` read it before their keywords: the comment
      above a function stays with it. */
  function FnHead(src: Source, p: nat, kw: string): (r: Res<Head>)
    requires p <= |src.input| && |kw| > 0
    ensures !r.Failure?
    ensures r.Done? ==> p < r.pos <= |src.input| && r.pos == r.value.at
  {
    var c := OptComment(src.input, p);
    var d := SideAt(src.input, Sp(src.input, c.pos));
    if !d.Done? then Propagate(d)
    else
      var t := SpacedTag(src.input, d.pos, kw);
      if !t.Done? then Propagate(t)
      else
        var i := Sp(src.input, t.pos);
        Done(i, Head(c.value, d.value, i))
  }

  /** `fndecl`: committed after `fn`; a request, whose results default to
      none when there is no `->`. */
  function FnDecl(src: Source, p: nat): (r: Res<FunctionDecl>)
    requires p <= |src.input|
    ensures r.Done? ==> p < r.pos <= |src.input| && r.value.kind == Request
    decreases |src.input| - p, 0
  {
    var h := FnHead(src, p, "fn");
    if !h.Done? then Propagate(h)
    else
      var i := h.pos;
      var sg := Commit(FnSignature(src, i), i, "function declaration");
      if !sg.Done? then Propagate(sg)
      else
        var g := sg.value;
        Done(sg.pos, FunctionDecl(Span(src, i, 0), h.value.comment, g.name, g.params,
          if g.results.Some? then g.results.value else [], g.body, Request, h.value.side))
  }

  /** `tuple((preceded(sp, id), preceded(sp, params), opt(results),
      opt(fnbody)))` */
  function FnSignature(src: Source, i: nat): (r: Res<Signature>)
    requires i <= |src.input|
    ensures r.Done? ==> i < r.pos <= |src.input|
    decreases |src.input| - i, 0
  {
    var np := NameParams(src, i);
    if !np.Done? then Propagate(np)
    else
      var rs := Results(src, np.pos);
      if rs.Failure? then Propagate(rs)
      else
        var e := if rs.Done? then rs.pos else np.pos;
        var b := FnBody(src, e);
        if b.Failure? then Propagate(b)
        else Done(if b.Done? then b.pos else e,
          Signature(np.value.0, np.value.1, if rs.Done? then Some(rs.value) else None, if b.Done? then Some(b.value) else None))
  }

  /** `fnbody`: `{`, then, committed, a namespace body and `}`. */
  function FnBody(src: Source, p: nat): (r: Res<NamespaceBody>)
    requires p <= |src.input|
    ensures r.Done? ==> p < r.pos <= |src.input|
    decreases |src.input| - p, 0
  {
    var o := SpacedChar(src.input, p, '{');
    if !o.Done? then Propagate(o) else Commit(BodyClose(src, o.pos), o.pos, "function body")
  }

  /** `terminated(nsbody, spaced(char('}')))` */
  function BodyClose(src: Source, j: nat): (r: Res<NamespaceBody>)
    requires j <= |src.input|
    ensures r.Done? ==> j < r.pos <= |src.input|
    decreases |src.input| - j, 4
  {
    var b := NsBody(src, j);
    if !b.Done? then b
    else
      var c := SpacedChar(src.input, b.pos, '}');
      if !c.Done? then Propagate(c) else Done(c.pos, b.value)
  }

  /** `notifdecl`: like `fndecl` after `nf`; a notification, with no
      results and no body. */
  function NotifDecl(src: Source, p: nat): (r: Res<FunctionDecl>)
    requires p <= |src.input|
    ensures r.Done? ==> (p < r.pos <= |src.input|
      && r.value.kind == Notification && r.value.results == [] && r.value.body.None?)
  {
    var h := FnHead(src, p, "nf");
    if !h.Done? then Propagate(h)
    else
      var i := h.pos;
      var np := Commit(NameParams(src, i), i, "notification declaration");
      if !np.Done? then Propagate(np)
      else Done(np.pos, FunctionDecl(Span(src, i, 0), h.value.comment, np.value.0, np.value.1, [], None,
        Notification, h.value.side))
  }

  /** `structdecl`: committed after `struct`. */
  function StructDeclP(src: Source, p: nat): (r: Res<StructDecl>)
    requires p <= |src.input|
    ensures r.Done? ==> p < r.pos <= |src.input|
  {
    var s := src.input;
    var c := OptComment(s, p);
    var a := Sp(s, c.pos);
    if !MatchesAt(s, a, "struct") then Error([(a, NomKind("Tag"))])
    else
      var l := Sp(s, a + 6);
      var b := Commit(StructBody(src, l), l, "struct declaration");
      if !b.Done? then Propagate(b) else Done(b.pos, StructDecl(Span(src, l, 0), c.value, b.value.0, b.value.1))
  }

  /** A name and a braced field list, each after whitespace. */
  function StructBody(src: Source, l: nat): (r: Res<(Identifier, seq<Field>)>)
    requires l <= |src.input|
    ensures r.Done? ==> l < r.pos <= |src.input|
  {
    var n := Id(src, Sp(src.input, l));
    if !n.Done? then Propagate(n)
    else
      var f := Delimited(src, Sp(src.input, n.pos), '{', '}');
      if !f.Done? then Propagate(f) else Done(f.pos, (n.value, f.value))
  }

  /** `nsdecl`: committed after `namespace`; `NamespaceDecl::new` keeps the
      body as it was read. */
  function NsDecl(src: Source, p: nat): (r: Res<NamespaceDecl>)
    requires p <= |src.input|
    ensures r.Done? ==> p < r.pos <= |src.input|
    decreases |src.input| - p, 0
  {
    var s := src.input;
    var c := OptComment(s, p);
    var a := Sp(s, c.pos);
    if !MatchesAt(s, a, "namespace") then Error([(a, NomKind("Tag"))])
    else
      var l := Sp(s, a + 9);
      var b := Commit(NsBlock(src, l), l, "namespace declaration");
      if !b.Done? then Propagate(b) else Done(b.pos, NamespaceDecl(Span(src, l, 0), c.value, b.value.0, b.value.1))
  }

  /** `tuple((spaced(id), delimited(spaced(char('{')), nsbody,
      spaced(char('}')))))` */
  function NsBlock(src: Source, l: nat): (r: Res<(Identifier, NamespaceBody)>)
    requires l <= |src.input|
    ensures r.Done? ==> l < r.pos <= |src.input|
    decreases |src.input| - l, 0
  {
    var n := Id(src, Sp(src.input, l));
    if !n.Done? then Propagate(n)
    else
      var o := SpacedChar(src.input, Sp(src.input, n.pos), '{');
      if !o.Done? then Propagate(o)
      else
        var b := BodyClose(src, o.pos);
        if !b.Done? then Propagate(b) else Done(b.pos, (n.value, b.value))
  }

  /** `nsitem`: a function, a notification, a struct or a namespace, or else
      a lone comment line, which yields no item. */
  function NsItem(src: Source, p: nat): (r: Res<Option<NamespaceItem>>)
    requires p <= |src.input|
    ensures r.Done? ==> p < r.pos <= |src.input|
    decreases |src.input| - p, 1
  {
    var f := FnDecl(src, p);
    if f.Done? then Done(f.pos, Some(FunctionItem(f.value)))
    else if f.Failure? then Propagate(f)
    else
      var n := NotifDecl(src, p);
      if n.Done? then Done(n.pos, Some(FunctionItem(n.value)))
      else if n.Failure? then Propagate(n)
      else
        var st := StructDeclP(src, p);
        if st.Done? then Done(st.pos, Some(StructItem(st.value)))
        else if st.Failure? then Propagate(st)
        else
          var ns := NsDecl(src, p);
          if ns.Done? then Done(ns.pos, Some(NamespaceItem(ns.value)))
          else if ns.Failure? then Propagate(ns)
          else
            var l := CommentLine(src.input, p);
            if l.Done? then Done(l.pos, None) else Error(l.errs + [(p, NomKind("Alt"))])
  }

  /** `many0(spaced(nsitem))` */
  function NsItems(src: Source, p: nat): (r: Res<seq<Option<NamespaceItem>>>)
    requires p <= |src.input|
    ensures !r.Error?
    ensures r.Done? ==> p <= r.pos <= |src.input|
    decreases |src.input| - p, 2
  {
    var it := NsItem(src, Sp(src.input, p));
    if it.Error? then Done(p, [])
    else if it.Failure? then Propagate(it)
    else
      var rest := NsItems(src, Sp(src.input, it.pos));
      if !rest.Done? then rest else Done(rest.pos, [it.value] + rest.value)
  }

  /** `NamespaceBody::new`: the items sorted by kind, in order. */
  function BodyOf(items: seq<NamespaceItem>): (b: NamespaceBody)
  {
    NamespaceBody(FunctionsOf(items), StructsOf(items), EnumsOf(items), NamespacesOf(items))
  }

  /** `nsbody`: items, then `spaced(many0(comment_line))`. */
  function NsBody(src: Source, p: nat): (r: Res<NamespaceBody>)
    requires p <= |src.input|
    ensures !r.Error?
    ensures r.Done? ==> p <= r.pos <= |src.input|
    decreases |src.input| - p, 3
  {
    var its := NsItems(src, p);
    if !its.Done? then Propagate(its)
    else
      var c := CommentLines(src.input, Sp(src.input, its.pos));
      Done(Sp(src.input, c.pos), BodyOf(Somes(its.value)))
  }

  /** `schema`: imports and a namespace body, then only whitespace and
      comment lines up to the end of the input (`all_consuming`). */
  function SchemaP(src: Source): (r: Res<Schema>)
    ensures r.Done? ==> r.pos == |src.input|
    ensures r.Error? ==> |r.errs| == 1 && r.errs[0].1 == NomKind("Eof") && Leftover(src.input, r.errs[0].0)
  {
    var m := Imports(src, 0);
    if !m.Done? then Propagate(m)
    else
      var b := NsBody(src, Sp(src.input, m.pos));
      if !b.Done? then Propagate(b)
      else
        var e := Trailer(src.input, Sp(src.input, b.pos));
        if e == |src.input| then Done(e, Schema(Span(src, 0, 0), m.value, b.value))
        else Error([(e, NomKind("Eof"))])
  }
}
