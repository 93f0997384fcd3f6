/** The schema and rules grammar of the older generation
    (lavish/src/parser/mod.rs), rule by rule.  A rule reads the source text
    from an offset and ends in one of nom's three outcomes (`NomChars.Res`):
    done, with where it stopped and what it built; a recoverable error, which
    `alt`, `opt` and `many0` step over; or a failure, raised by `cut`, which
    nothing recovers from.  Both carry nom's `VerboseError` stack, innermost
    entry first.

    A rule handed the whole source sees, at offset `p`, the span
    `p .. |input|`; spans built here use that. */
module LavishParser {
  import opened Common
  import opened LavishSpan
  import opened LavishAst
  import opened NomChars

  // Identifiers and string literals

  /** `id`: a non-empty maximal run of letters, digits and '_'. */
  function Id(src: Source, p: nat): (r: Res<Identifier>)
    requires p <= |src.input|
    ensures !r.Failure?
    ensures r.Error? <==> p == |src.input| || !IsIdChar(src.input[p])
    ensures r.Done? ==> (p < r.pos <= |src.input| && r.value.text == src.input[p..r.pos]
      && r.value.span == Span(src, p, r.pos - p)
      && (r.pos < |src.input| ==> !IsIdChar(src.input[r.pos])))
  {
    var q := TakeWhile(src.input, p, IdChar);
    if q == p then Error([(p, NomKind("TakeWhile1"))])
    else Done(q, Identifier(Span(src, p, q - p), src.input[p..q]))
  }

  /** `stringlit`: a double quote, a non-empty run of letters, digits and
      "_-./", a double quote; no escapes.  The location is the empty span
      before the opening quote. */
  function StringLit(src: Source, p: nat): (r: Res<StringLiteral>)
    requires p <= |src.input|
    ensures !r.Failure?
    ensures r.Done? ==> (p + 3 <= r.pos <= |src.input|
      && src.input[p] == '"' && src.input[r.pos - 1] == '"'
      && r.value == StringLiteral(Span(src, p, 0), src.input[p + 1..r.pos - 1]))
  {
    var s := src.input;
    if !(p < |s| && s[p] == '"') then Error([(p, CharKind('"'))])
    else
      var q := TakeWhile(s, p + 1, LitChar);
      if q == p + 1 then Error([(p + 1, NomKind("TakeWhile1"))])
      else if !(q < |s| && s[q] == '"') then Error([(q, CharKind('"'))])
      else Done(q + 1, StringLiteral(Span(src, p, 0), s[p + 1..q]))
  }


  /** `many0(comment_line)` */
  function CommentLines(src: Source, p: nat): (r: Parsed<seq<string>>)
    requires p <= |src.input|
    ensures p <= r.pos <= |src.input|
    decreases |src.input| - p
  {
    var l := CommentLine(src.input, p);
    if l.Done? then
      var rest := CommentLines(src, l.pos);
      Parsed(rest.pos, [l.value] + rest.value)
    else Parsed(p, [])
  }

  /** `opt(comment)`, a comment being one or more comment lines. */
  function OptComment(src: Source, p: nat): (r: Parsed<Option<Comment>>)
    requires p <= |src.input|
    ensures p <= r.pos <= |src.input|
    ensures r.value.None? <==> r.pos == p
  {
    var l := CommentLine(src.input, p);
    if l.Done? then
      var rest := CommentLines(src, l.pos);
      Parsed(rest.pos, Some(Comment([l.value] + rest.value)))
    else Parsed(p, None)
  }


  // Rules files

  /** `target`: the keyword, then, committed, one of the three targets. */
  function TargetP(src: Source, p: nat): (r: Res<Target>)
    requires p <= |src.input|
    ensures r.Done? ==> p < r.pos <= |src.input|
  {
    var t := SpacedTag(src.input, p, "target");
    if !t.Done? then Propagate(t)
    else Commit(TargetName(src, t.pos), t.pos, "target directive")
  }

  /** `alt((rust_target, go_target, ts_target))` */
  function TargetName(src: Source, i: nat): (r: Res<Target>)
    requires i <= |src.input|
    ensures !r.Failure?
    ensures r.Done? ==> i < r.pos <= |src.input|
  {
    var rust := SpacedTag(src.input, i, "rust");
    if rust.Done? then Done(rust.pos, Rust)
    else
      var go := SpacedTag(src.input, i, "go");
      if go.Done? then Done(go.pos, Go)
      else
        var ts := SpacedTag(src.input, i, "typescript");
        if ts.Done? then Done(ts.pos, TypeScript)
        else Error(ts.errs + [(i, NomKind("Alt"))])
  }

  /** `from`: the keyword, then, committed, a string literal. */
  function From(src: Source, p: nat): (r: Res<FromDirective>)
    requires p <= |src.input|
    ensures r.Done? ==> p < r.pos <= |src.input|
  {
    var t := SpacedTag(src.input, p, "from");
    if !t.Done? then Propagate(t)
    else
      var lit := Commit(StringLit(src, Sp(src.input, t.pos)), t.pos, "from directive");
      if !lit.Done? then Propagate(lit)
      else Done(Sp(src.input, lit.pos), FromDirective(lit.value))
  }

  /** `spaced(opt(from))` */
  function OptFrom(src: Source, p: nat): (r: Res<Option<FromDirective>>)
    requires p <= |src.input|
    ensures !r.Error?
    ensures r.Done? ==> p <= r.pos <= |src.input|
  {
    var a := Sp(src.input, p);
    var f := From(src, a);
    if f.Done? then Done(Sp(src.input, f.pos), Some(f.value))
    else if f.Error? then Done(a, None)
    else Propagate(f)
  }

  /** `build`: comment lines, the keyword, then, committed, a name and an
      optional `from`. */
  function BuildP(src: Source, p: nat): (r: Res<Build>)
    requires p <= |src.input|
    ensures r.Done? ==> p < r.pos <= |src.input|
  {
    var t := SpacedTag(src.input, SpacedCommentLines(src.input, p), "build");
    if !t.Done? then Propagate(t)
    else
      var b := Commit(NamedFrom(src, t.pos), t.pos, "build directive");
      if !b.Done? then Propagate(b) else Done(b.pos, Build(b.value.0, b.value.1))
  }

  /** `tuple((spaced(id), spaced(opt(from))))`, shared by `build` and
      `import`. */
  function NamedFrom(src: Source, i: nat): (r: Res<(Identifier, Option<FromDirective>)>)
    requires i <= |src.input|
    ensures r.Done? ==> i < r.pos <= |src.input|
  {
    var n := Id(src, Sp(src.input, i));
    if !n.Done? then Propagate(n)
    else
      var f := OptFrom(src, Sp(src.input, n.pos));
      if !f.Done? then Propagate(f) else Done(f.pos, (n.value, f.value))
  }

  /** `many0(spaced(build))` */
  function Builds(src: Source, p: nat): (r: Res<seq<Build>>)
    requires p <= |src.input|
    ensures !r.Error?
    ensures r.Done? ==> p <= r.pos <= |src.input|
    decreases |src.input| - p
  {
    var b := BuildP(src, Sp(src.input, p));
    if b.Error? then Done(p, [])
    else if b.Failure? then Propagate(b)
    else
      var rest := Builds(src, Sp(src.input, b.pos));
      if !rest.Done? then rest else Done(rest.pos, [b.value] + rest.value)
  }


  /** `rules`: one target, any number of builds, then only whitespace and
      comment lines up to the end of the input (`all_consuming`). */
  function RulesP(src: Source): (r: Res<Rules>)
    ensures r.Done? ==> r.pos == |src.input|
    ensures r.Error? ==> (|r.errs| == 1
      && (r.errs[0] == (Sp(src.input, 0), NomKind("Tag")) || (r.errs[0].1 == NomKind("Eof") && Leftover(src.input, r.errs[0].0))))
  {
    var t := TargetP(src, 0);
    if !t.Done? then Propagate(t)
    else
      var b := Builds(src, Sp(src.input, t.pos));
      if !b.Done? then Propagate(b)
      else
        var e := Trailer(src.input, b.pos);
        if e == |src.input| then Done(e, Rules(Span(src, 0, 0), t.value, b.value))
        else Error([(e, NomKind("Eof"))])
  }

  // Schemas: imports

  /** `import`: the keyword, then, committed, a name and an optional
      `from`. */
  function ImportP(src: Source, p: nat): (r: Res<Import>)
    requires p <= |src.input|
    ensures r.Done? ==> p < r.pos <= |src.input|
  {
    var t := SpacedTag(src.input, p, "import");
    if !t.Done? then Propagate(t)
    else
      var b := Commit(NamedFrom(src, t.pos), t.pos, "import");
      if !b.Done? then Propagate(b) else Done(b.pos, Import(b.value.0, b.value.1))
  }

  /** `many0(spaced(import))` */
  function Imports(src: Source, p: nat): (r: Res<seq<Import>>)
    requires p <= |src.input|
    ensures !r.Error?
    ensures r.Done? ==> p <= r.pos <= |src.input|
    decreases |src.input| - p
  {
    var m := ImportP(src, Sp(src.input, p));
    if m.Error? then Done(p, [])
    else if m.Failure? then Propagate(m)
    else
      var rest := Imports(src, Sp(src.input, m.pos));
      if !rest.Done? then rest else Done(rest.pos, [m.value] + rest.value)
  }

  // Types

  /** The base types, in the order `basetyp` tries them. */
  const BaseNames: seq<(string, BaseType)> := [
    ("bool", Bool), ("int32", Int32), ("int64", Int64), ("uint32", UInt32), ("uint64", UInt64),
    ("float32", Float32), ("float64", Float64), ("string", String), ("bytes", Bytes), ("timestamp", Timestamp)]

  /** The first base type name, from the `k`-th on, that stands at `a`. */
  function BaseTag(s: string, a: nat, k: nat): (r: Option<(string, BaseType)>)
    requires a <= |s| && k <= |BaseNames|
    ensures r.Some? ==> r.value in BaseNames && MatchesAt(s, a, r.value.0)
    decreases |BaseNames| - k
  {
    if k == |BaseNames| then None
    else if MatchesAt(s, a, BaseNames[k].0) then Some(BaseNames[k])
    else BaseTag(s, a, k + 1)
  }

  /** `basetyp`: the span is the keyword's. */
  function BaseTyp(src: Source, p: nat): (r: Res<Type>)
    requires p <= |src.input|
    ensures !r.Failure?
    ensures r.Done? ==> p < r.pos <= |src.input| && r.value.kind.Base?
  {
    var a := Sp(src.input, p);
    match BaseTag(src.input, a, 0)
    case None => Error([(a, NomKind("Tag")), (a, NomKind("Alt"))])
    case Some(b) => Done(Sp(src.input, a + |b.0|), Type(Span(src, a, |b.0|), Base(b.1)))
  }

  /** `usertyp`: a non-empty run of letters, digits, '_' and '.'. */
  function UserTyp(src: Source, p: nat): (r: Res<Type>)
    requires p <= |src.input|
    ensures !r.Failure?
    ensures r.Done? ==> p < r.pos <= |src.input| && r.value == Type(Span(src, p, r.pos - p), User)
  {
    var q := TakeWhile(src.input, p, UserChar);
    if q == p then Error([(p, NomKind("TakeWhile1"))]) else Done(q, Type(Span(src, p, q - p), User))
  }

  /** `kw < typ >`, as read by `arraytyp` and `optiontyp`: the inner type. */
  function Wrapped(src: Source, p: nat, kw: string): (r: Res<Type>)
    requires p <= |src.input| && |kw| > 0
    ensures r.Done? ==> p < r.pos <= |src.input|
    decreases |src.input| - p, 0
  {
    var t := SpacedTag(src.input, p, kw);
    if !t.Done? then Propagate(t)
    else
      var l := SpacedChar(src.input, t.pos, '<');
      if !l.Done? then Propagate(l)
      else
        var inner := Typ(src, l.pos);
        if !inner.Done? then inner
        else
          var g := SpacedChar(src.input, inner.pos, '>');
          if !g.Done? then Propagate(g) else Done(g.pos, inner.value)
  }

  /** `maptyp`: `Map < typ , typ >`, the comma straight after the key
      type and its trailing whitespace. */
  function MapTyp(src: Source, p: nat): (r: Res<Type>)
    requires p <= |src.input|
    ensures r.Done? ==> p < r.pos <= |src.input| && r.value.kind.Map?
    decreases |src.input| - p, 0
  {
    var s := src.input;
    var t := SpacedTag(src.input, p, "Map");
    if !t.Done? then Propagate(t)
    else
      var l := SpacedChar(src.input, t.pos, '<');
      if !l.Done? then Propagate(l)
      else
        var k := Typ(src, Sp(s, l.pos));
        if !k.Done? then k
        else
          var c := Sp(s, k.pos);
          if !(c < |s| && s[c] == ',') then Error([(c, CharKind(','))])
          else
            var v := Typ(src, Sp(s, c + 1));
            if !v.Done? then v
            else
              var g := SpacedChar(src.input, Sp(s, v.pos), '>');
              if !g.Done? then Propagate(g)
              else Done(g.pos, Type(Span(src, p, |s| - p), Map(k.value, v.value)))
  }

  /** `typ`: `Map<..>`, `Array<..>`, `Option<..>`, a base type, then a user
      type, first match wins.  Container types span the rest of the input
      from where they start. */
  function Typ(src: Source, p: nat): (r: Res<Type>)
    requires p <= |src.input|
    ensures r.Done? ==> p < r.pos <= |src.input|
    decreases |src.input| - p, 1
  {
    var s := src.input;
    var m := MapTyp(src, p);
    if !m.Error? then m
    else
      var a := Wrapped(src, p, "Array");
      if a.Done? then Done(a.pos, Type(Span(src, p, |s| - p), Array(a.value)))
      else if a.Failure? then a
      else
        var o := Wrapped(src, p, "Option");
        if o.Done? then Done(o.pos, Type(Span(src, p, |s| - p), Opt(o.value)))
        else if o.Failure? then o
        else
          var b := BaseTyp(src, p);
          if b.Done? then b
          else
            var u := UserTyp(src, p);
            if u.Done? then u else Error(u.errs + [(p, NomKind("Alt"))])
  }

  // Fields

  /** `field`: an optional comment, a name, then, committed, `: typ`. The
      location is the empty span where the name starts. */
  function FieldP(src: Source, p: nat): (r: Res<Field>)
    requires p <= |src.input|
    ensures r.Done? ==> p < r.pos <= |src.input|
  {
    var s := src.input;
    var c := OptComment(src, p);
    var l := Sp(s, c.pos);
    var n := Id(src, l);
    if !n.Done? then Propagate(n)
    else
      var q := Sp(s, n.pos);
      var t := Commit(FieldType(src, q), q, "field");
      if !t.Done? then Propagate(t)
      else Done(Sp(s, t.pos), Field(Span(src, l, 0), c.value, n.value, t.value))
  }

  /** `preceded(spaced(char(':')), spaced(typ))` */
  function FieldType(src: Source, q: nat): (r: Res<Type>)
    requires q <= |src.input|
    ensures r.Done? ==> q < r.pos <= |src.input|
  {
    var colon := SpacedChar(src.input, q, ':');
    if !colon.Done? then Propagate(colon)
    else
      var t := Typ(src, Sp(src.input, colon.pos));
      if !t.Done? then t else Done(Sp(src.input, t.pos), t.value)
  }

  /** The fields after the first, each after `spaced(char(','))`; the list
      stops before a comma that no field follows. */
  function MoreFields(src: Source, i: nat): (r: Res<seq<Field>>)
    requires i <= |src.input|
    ensures !r.Error?
    ensures r.Done? ==> i <= r.pos <= |src.input|
    decreases |src.input| - i
  {
    var comma := SpacedChar(src.input, i, ',');
    if !comma.Done? then Done(i, [])
    else
      var f := FieldP(src, comma.pos);
      if f.Error? then Done(i, [])
      else if f.Failure? then Propagate(f)
      else
        var rest := MoreFields(src, f.pos);
        if !rest.Done? then rest else Done(rest.pos, [f.value] + rest.value)
  }

  /** `separated_list(spaced(char(',')), field)` */
  function FieldList(src: Source, p: nat): (r: Res<seq<Field>>)
    requires p <= |src.input|
    ensures !r.Error?
    ensures r.Done? ==> p <= r.pos <= |src.input|
  {
    var f := FieldP(src, p);
    if f.Error? then Done(p, [])
    else if f.Failure? then Propagate(f)
    else
      var rest := MoreFields(src, f.pos);
      if !rest.Done? then rest else Done(rest.pos, [f.value] + rest.value)
  }

  /** `fields`: the list, then an optional trailing comma. */
  function Fields(src: Source, p: nat): (r: Res<seq<Field>>)
    requires p <= |src.input|
    ensures !r.Error?
    ensures r.Done? ==> p <= r.pos <= |src.input|
  {
    var l := FieldList(src, p);
    if !l.Done? then l
    else
      var comma := SpacedChar(src.input, l.pos, ',');
      if comma.Done? then Done(comma.pos, l.value) else l
  }

  /** `delimited(char(open), fields, preceded(sp, char(close)))` */
  function Delimited(src: Source, i: nat, open: char, close: char): (r: Res<seq<Field>>)
    requires i <= |src.input|
    ensures r.Done? ==> i + 2 <= r.pos <= |src.input|
  {
    var s := src.input;
    if !(i < |s| && s[i] == open) then Error([(i, CharKind(open))])
    else
      var f := Fields(src, i + 1);
      if !f.Done? then f
      else
        var c := Sp(s, f.pos);
        if c < |s| && s[c] == close then Done(c + 1, f.value) else Error([(c, CharKind(close))])
  }

  // Functions, structs and namespaces

  /** `fnmod` */
  function FnMod(s: string, p: nat): (r: Option<(nat, FunctionModifier)>)
    requires p <= |s|
    ensures r.Some? ==> r.value.0 == p + 6 <= |s| && r.value.1 != Notification
  {
    if MatchesAt(s, p, "server") then Some((p + 6, Server))
    else if MatchesAt(s, p, "client") then Some((p + 6, Client))
    else None
  }

  /** `preceded(sp, separated_list(sp, fnmod))`.  A modifier that no
      whitespace follows makes the list fail: `separated_list` refuses a
      separator that reads nothing. */
  function FnMods(src: Source, p: nat): (r: Res<seq<FunctionModifier>>)
    requires p <= |src.input|
    ensures !r.Failure?
    ensures r.Done? ==> p <= r.pos <= |src.input| && Notification !in r.value
  {
    var a := Sp(src.input, p);
    match FnMod(src.input, a)
    case None => Done(a, [])
    case Some(m) =>
      var rest := MoreMods(src, m.0);
      if !rest.Done? then rest else Done(rest.pos, [m.1] + rest.value)
  }

  function MoreMods(src: Source, i: nat): (r: Res<seq<FunctionModifier>>)
    requires i <= |src.input|
    ensures !r.Failure?
    ensures r.Done? ==> i <= r.pos <= |src.input| && Notification !in r.value
    decreases |src.input| - i
  {
    var b := Sp(src.input, i);
    if b == i then Error([(b, NomKind("SeparatedList"))])
    else match FnMod(src.input, b)
      case None => Done(i, [])
      case Some(m) =>
        var rest := MoreMods(src, m.0);
        if !rest.Done? then rest else Done(rest.pos, [m.1] + rest.value)
  }

  /** `results`: `->`, then, committed, a parenthesised field list. */
  function Results(src: Source, p: nat): (r: Res<seq<Field>>)
    requires p <= |src.input|
    ensures r.Done? ==> p < r.pos <= |src.input|
  {
    var t := SpacedTag(src.input, p, "->");
    if !t.Done? then Propagate(t) else Commit(Delimited(src, t.pos, '(', ')'), t.pos, "result list")
  }

  /** A name and a parenthesised parameter list, each after whitespace. */
  function NameParams(src: Source, i: nat): (r: Res<(Identifier, seq<Field>)>)
    requires i <= |src.input|
    ensures r.Done? ==> i < r.pos <= |src.input|
  {
    var s := src.input;
    var n := Id(src, Sp(s, i));
    if !n.Done? then Propagate(n)
    else
      var a := Sp(s, n.pos);
      var ps := Delimited(src, a, '(', ')');
      if ps.Done? then Done(ps.pos, (n.value, ps.value))
      else if ps.Error? then Error(ps.errs + [(a, ContextKind("parameter list"))])
      else Failure(ps.errs + [(a, ContextKind("parameter list"))])
  }

  /** What follows `fn`: the name and parameters, optional results and an
      optional body. */
  datatype Signature = Signature(name: Identifier, params: seq<Field>, results: Option<seq<Field>>, body: Option<NamespaceBody>)

  /** Where a declaration starts: its comment, modifiers and the offset after
      its keyword. */
  datatype Head = Head(comment: Option<Comment>, modifiers: seq<FunctionModifier>, at: nat)

  /** `opt(comment)`, `fnmods`, then `spaced(tag(kw))` and `spaced(loc)`. */
  function FnHead(src: Source, p: nat, kw: string): (r: Res<Head>)
    requires p <= |src.input| && |kw| > 0
    ensures !r.Failure?
    ensures r.Done? ==> p < r.pos <= |src.input| && r.pos == r.value.at && Notification !in r.value.modifiers
  {
    var c := OptComment(src, p);
    var m := FnMods(src, c.pos);
    if !m.Done? then Propagate(m)
    else
      var t := SpacedTag(src.input, m.pos, kw);
      if !t.Done? then Propagate(t)
      else
        var i := Sp(src.input, t.pos);
        Done(i, Head(c.value, m.value, i))
  }

  function SetOf(mods: seq<FunctionModifier>): (r: set<FunctionModifier>)
    ensures forall m :: m in r <==> m in mods
  {
    set m | m in mods
  }

  /** `fndecl`: committed after `fn`.  Results default to none when there is
      no `->`. */
  function FnDecl(src: Source, p: nat): (r: Res<FunctionDecl>)
    requires p <= |src.input|
    ensures r.Done? ==> p < r.pos <= |src.input| && Notification !in r.value.modifiers
    decreases |src.input| - p, 0
  {
    var h := FnHead(src, p, "fn");
    if !h.Done? then Propagate(h)
    else
      var i := h.pos;
      var sg := Commit(FnSignature(src, i), i, "function declaration");
      if !sg.Done? then Propagate(sg)
      else
        var g := sg.value;
        Done(sg.pos, FunctionDecl(Span(src, i, 0), h.value.comment, SetOf(h.value.modifiers), g.name, g.params,
          if g.results.Some? then g.results.value else [], g.body))
  }

  /** `tuple((preceded(sp, id), preceded(sp, params), opt(results),
      opt(fnbody)))` */
  function FnSignature(src: Source, i: nat): (r: Res<Signature>)
    requires i <= |src.input|
    ensures r.Done? ==> i < r.pos <= |src.input|
    decreases |src.input| - i, 0
  {
    var np := NameParams(src, i);
    if !np.Done? then Propagate(np)
    else
      var rs := Results(src, np.pos);
      if rs.Failure? then Propagate(rs)
      else
        var e := if rs.Done? then rs.pos else np.pos;
        var b := FnBody(src, e);
        if b.Failure? then Propagate(b)
        else Done(if b.Done? then b.pos else e,
          Signature(np.value.0, np.value.1, if rs.Done? then Some(rs.value) else None, if b.Done? then Some(b.value) else None))
  }

  /** `fnbody`: `{`, then, committed, a namespace body and `}`. */
  function FnBody(src: Source, p: nat): (r: Res<NamespaceBody>)
    requires p <= |src.input|
    ensures r.Done? ==> p < r.pos <= |src.input|
    decreases |src.input| - p, 0
  {
    var o := SpacedChar(src.input, p, '{');
    if !o.Done? then Propagate(o) else Commit(BodyClose(src, o.pos), o.pos, "function body")
  }

  /** `terminated(nsbody, spaced(char('}')))` */
  function BodyClose(src: Source, j: nat): (r: Res<NamespaceBody>)
    requires j <= |src.input|
    ensures r.Done? ==> j < r.pos <= |src.input|
    decreases |src.input| - j, 4
  {
    var b := NsBody(src, j);
    if !b.Done? then b
    else
      var c := SpacedChar(src.input, b.pos, '}');
      if !c.Done? then Propagate(c) else Done(c.pos, b.value)
  }

  /** `notifdecl`: like `fndecl` after `nf`, with no results and no body;
      the modifiers gain `Notification`. */
  function NotifDecl(src: Source, p: nat): (r: Res<FunctionDecl>)
    requires p <= |src.input|
    ensures r.Done? ==> (p < r.pos <= |src.input|
      && Notification in r.value.modifiers && r.value.results == [] && r.value.body.None?)
  {
    var h := FnHead(src, p, "nf");
    if !h.Done? then Propagate(h)
    else
      var i := h.pos;
      var np := Commit(NameParams(src, i), i, "notification declaration");
      if !np.Done? then Propagate(np)
      else Done(np.pos, FunctionDecl(Span(src, i, 0), h.value.comment, SetOf(h.value.modifiers) + {Notification},
        np.value.0, np.value.1, [], None))
  }

  /** `structdecl`: committed after `struct`. */
  function StructDeclP(src: Source, p: nat): (r: Res<StructDecl>)
    requires p <= |src.input|
    ensures r.Done? ==> p < r.pos <= |src.input|
  {
    var s := src.input;
    var c := OptComment(src, p);
    var a := Sp(s, c.pos);
    if !MatchesAt(s, a, "struct") then Error([(a, NomKind("Tag"))])
    else
      var l := Sp(s, a + 6);
      var b := Commit(StructBody(src, l), l, "struct declaration");
      if !b.Done? then Propagate(b) else Done(b.pos, StructDecl(Span(src, l, 0), c.value, b.value.0, b.value.1))
  }

  /** A name and a braced field list, each after whitespace. */
  function StructBody(src: Source, l: nat): (r: Res<(Identifier, seq<Field>)>)
    requires l <= |src.input|
    ensures r.Done? ==> l < r.pos <= |src.input|
  {
    var n := Id(src, Sp(src.input, l));
    if !n.Done? then Propagate(n)
    else
      var f := Delimited(src, Sp(src.input, n.pos), '{', '}');
      if !f.Done? then Propagate(f) else Done(f.pos, (n.value, f.value))
  }

  /** The namespace a body of items makes: each kind in its own list, in
      order (`NamespaceDecl::new`). */
  function MakeNamespace(name: Identifier, loc: Span, comment: Option<Comment>, body: NamespaceBody): (d: NamespaceDecl)
  {
    NamespaceDecl(loc, comment, name, body.functions, body.structs, body.namespaces)
  }

  /** `nsdecl`: committed after `namespace`. */
  function NsDecl(src: Source, p: nat): (r: Res<NamespaceDecl>)
    requires p <= |src.input|
    ensures r.Done? ==> p < r.pos <= |src.input|
    decreases |src.input| - p, 0
  {
    var s := src.input;
    var c := OptComment(src, p);
    var a := Sp(s, c.pos);
    if !MatchesAt(s, a, "namespace") then Error([(a, NomKind("Tag"))])
    else
      var l := Sp(s, a + 9);
      var b := Commit(NsBlock(src, l), l, "namespace declaration");
      if !b.Done? then Propagate(b) else Done(b.pos, MakeNamespace(b.value.0, Span(src, l, 0), c.value, b.value.1))
  }

  /** `tuple((spaced(id), delimited(spaced(char('{')), nsbody,
      spaced(char('}')))))` */
  function NsBlock(src: Source, l: nat): (r: Res<(Identifier, NamespaceBody)>)
    requires l <= |src.input|
    ensures r.Done? ==> l < r.pos <= |src.input|
    decreases |src.input| - l, 0
  {
    var n := Id(src, Sp(src.input, l));
    if !n.Done? then Propagate(n)
    else
      var o := SpacedChar(src.input, Sp(src.input, n.pos), '{');
      if !o.Done? then Propagate(o)
      else
        var b := BodyClose(src, o.pos);
        if !b.Done? then Propagate(b) else Done(b.pos, (n.value, b.value))
  }

  /** `nsitem`: a function, a notification, a struct or a namespace, or else
      a lone comment line, which yields no item. */
  function NsItem(src: Source, p: nat): (r: Res<Option<NamespaceItem>>)
    requires p <= |src.input|
    ensures r.Done? ==> p < r.pos <= |src.input|
    decreases |src.input| - p, 1
  {
    var f := FnDecl(src, p);
    if f.Done? then Done(f.pos, Some(FunctionItem(f.value)))
    else if f.Failure? then Propagate(f)
    else
      var n := NotifDecl(src, p);
      if n.Done? then Done(n.pos, Some(FunctionItem(n.value)))
      else if n.Failure? then Propagate(n)
      else
        var st := StructDeclP(src, p);
        if st.Done? then Done(st.pos, Some(StructItem(st.value)))
        else if st.Failure? then Propagate(st)
        else
          var ns := NsDecl(src, p);
          if ns.Done? then Done(ns.pos, Some(NamespaceItem(ns.value)))
          else if ns.Failure? then Propagate(ns)
          else
            var l := CommentLine(src.input, p);
            if l.Done? then Done(l.pos, None) else Error(l.errs + [(p, NomKind("Alt"))])
  }

  /** `many0(spaced(nsitem))` */
  function NsItems(src: Source, p: nat): (r: Res<seq<Option<NamespaceItem>>>)
    requires p <= |src.input|
    ensures !r.Error?
    ensures r.Done? ==> p <= r.pos <= |src.input|
    decreases |src.input| - p, 2
  {
    var it := NsItem(src, Sp(src.input, p));
    if it.Error? then Done(p, [])
    else if it.Failure? then Propagate(it)
    else
      var rest := NsItems(src, Sp(src.input, it.pos));
      if !rest.Done? then rest else Done(rest.pos, [it.value] + rest.value)
  }

  /** `NamespaceBody::new`: the items sorted by kind, in order. */
  function BodyOf(items: seq<NamespaceItem>): (b: NamespaceBody)
  {
    NamespaceBody(FunctionsOf(items), StructsOf(items), NamespacesOf(items))
  }

  /** `nsbody`: items, then `spaced(many0(comment_line))`. */
  function NsBody(src: Source, p: nat): (r: Res<NamespaceBody>)
    requires p <= |src.input|
    ensures !r.Error?
    ensures r.Done? ==> p <= r.pos <= |src.input|
    decreases |src.input| - p, 3
  {
    var its := NsItems(src, p);
    if !its.Done? then Propagate(its)
    else
      var c := CommentLines(src, Sp(src.input, its.pos));
      Done(Sp(src.input, c.pos), BodyOf(Somes(its.value)))
  }

  /** `schema`: imports and a namespace body, then only whitespace and
      comment lines up to the end of the input (`all_consuming`). */
  function SchemaP(src: Source): (r: Res<Schema>)
    ensures r.Done? ==> r.pos == |src.input|
    ensures r.Error? ==> |r.errs| == 1 && r.errs[0].1 == NomKind("Eof") && Leftover(src.input, r.errs[0].0)
  {
    var m := Imports(src, 0);
    if !m.Done? then Propagate(m)
    else
      var b := NsBody(src, Sp(src.input, m.pos));
      if !b.Done? then Propagate(b)
      else
        var e := Trailer(src.input, Sp(src.input, b.pos));
        if e == |src.input| then Done(e, Schema(Span(src, 0, 0), m.value, b.value))
        else Error([(e, NomKind("Eof"))])
  }
}
