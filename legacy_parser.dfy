/** The oldest grammar of the newer crate (src/parser.rs): a hand-written
    combinator parser over the whole schema text that produces the syntax
    tree of src/ast.rs.

    A parser here takes the input and a position and either fails or
    returns where it stopped and what it read.  The grammar uses no cut:
    every failure is a recoverable error, and each one is absorbed by the
    enclosing `opt`, `alt`, `many0` or `separated_list`, so which error a
    sub-parser reports never reaches the caller.  Only the top level can
    fail, when input is left over.  `context` labels therefore change
    nothing here.  The repetition guards of `many0` and `separated_list`
    (an error when an iteration consumes nothing) never fire, because every
    repeated item consumes at least one character; the contracts below
    state that it does.

    This parser predates the location and modifier fields of src/ast.rs:
    nodes are built with an empty location, no modifiers and, for structs,
    no comment and no fields. */
module LegacyParser {
  import opened Common
  import opened LegacyAst

  const NoLoc: Loc := Loc("")

  /** The character classes the grammar runs over. */
  datatype CharClass = Space | IdChar | Blank | NotNewline

  predicate IsSpace(c: char)
  {
    c == ' ' || c == '\t' || c == '\r' || c == '\n'
  }

  predicate IsIdChar(c: char)
  {
    ('a' <= c <= 'z') || ('A' <= c <= 'Z') || ('0' <= c <= '9') || c == '_'
  }

  predicate InClass(c: char, cl: CharClass)
  {
    match cl
    case Space => IsSpace(c)
    case IdChar => IsIdChar(c)
    case Blank => c == ' ' || c == '\t'
    case NotNewline => c != '\n'
  }

  /** `take_while(f)`: the end of the longest run of `cl` characters from
      `p`. */
  function TakeWhile(s: string, p: nat, cl: CharClass): (q: nat)
    requires p <= |s|
    ensures p <= q <= |s|
    ensures q < |s| ==> !InClass(s[q], cl)
    decreases |s| - p
  {
    if p < |s| && InClass(s[p], cl) then TakeWhile(s, p + 1, cl) else p
  }

  /** Every character `take_while` passes over is of the class. */
  lemma {:induction false} TakeWhileAll(s: string, p: nat, cl: CharClass)
    requires p <= |s|
    ensures forall k :: p <= k < TakeWhile(s, p, cl) ==> InClass(s[k], cl)
    decreases |s| - p
  {
    if p < |s| && InClass(s[p], cl) {
      TakeWhileAll(s, p + 1, cl);
    }
  }

  /** `sp`: skips spaces, tabs, carriage returns and newlines. */
  function Sp(s: string, p: nat): (q: nat)
    requires p <= |s|
    ensures p <= q <= |s|
  {
    TakeWhile(s, p, Space)
  }

  /** `id`: the longest run of letters, digits and '_', possibly empty. */
  function Id(s: string, p: nat): (r: Parsed<string>)
    requires p <= |s|
    ensures p <= r.pos <= |s| && r.value == s[p..r.pos]
    ensures r.pos < |s| ==> !IsIdChar(s[r.pos])
  {
    var q := TakeWhile(s, p, IdChar);
    Parsed(q, s[p..q])
  }

  /** `char(c)` */
  function Char(s: string, p: nat, c: char): (r: Option<nat>)
    requires p <= |s|
    ensures r.Some? <==> p < |s| && s[p] == c
    ensures r.Some? ==> r.value == p + 1
  {
    if p < |s| && s[p] == c then Some(p + 1) else None
  }

  /** `t` stands in `s` from `p` on, compared character by character. */
  predicate MatchesAt(s: string, p: nat, t: string)
    decreases |t|
  {
    |t| == 0 || (p < |s| && s[p] == t[0] && MatchesAt(s, p + 1, t[1..]))
  }

  /** `tag(t)` */
  function Tag(s: string, p: nat, t: string): (r: Option<nat>)
    requires p <= |s|
    ensures r.Some? ==> r.value == p + |t| <= |s|
  {
    if MatchesAt(s, p, t) then
      MatchesBound(s, p, t);
      Some(p + |t|)
    else None
  }

  lemma {:induction false} MatchesBound(s: string, p: nat, t: string)
    requires p <= |s| && MatchesAt(s, p, t)
    ensures p + |t| <= |s|
    decreases |t|
  {
    if |t| > 0 {
      MatchesBound(s, p + 1, t[1..]);
    }
  }

  /** `tag(t)` succeeds exactly when the next |t| characters are `t`. */
  lemma {:induction false} TagSpec(s: string, p: nat, t: string)
    requires p <= |s|
    ensures Tag(s, p, t).Some? <==> p + |t| <= |s| && s[p..p + |t|] == t
    decreases |t|
  {
    if |t| > 0 && p < |s| {
      TagSpec(s, p + 1, t[1..]);
      if p + |t| <= |s| {
        assert s[p..p + |t|] == [s[p]] + s[p + 1..p + 1 + |t[1..]|];
        assert t == [t[0]] + t[1..];
      }
    }
  }

  /** `take_until("\n")` on complete input: the text up to the next newline,
      which stays unread; an error when no newline follows. */
  function TakeUntilNewline(s: string, p: nat): (r: Option<Parsed<string>>)
    requires p <= |s|
    ensures r.Some? ==> p <= r.value.pos < |s| && s[r.value.pos] == '\n' && r.value.value == s[p..r.value.pos]
  {
    var q := TakeWhile(s, p, NotNewline);
    if q < |s| then Some(Parsed(q, s[p..q])) else None
  }

  /** The text `take_until` returns holds no newline, and it fails only
      when no newline is left. */
  lemma TakeUntilNewlineSpec(s: string, p: nat)
    requires p <= |s|
    ensures TakeUntilNewline(s, p).Some? ==> forall k :: p <= k < TakeUntilNewline(s, p).value.pos ==> s[k] != '\n'
    ensures TakeUntilNewline(s, p).None? ==> '\n' !in s[p..]
  {
    TakeWhileAll(s, p, NotNewline);
    if TakeUntilNewline(s, p).None? {
      assert forall k :: 0 <= k < |s| - p ==> s[p..][k] == s[p + k];
    }
  }

  /** `comment_line` as written: whitespace, "//", whitespace, then the text
      up to the next newline.  The whitespace skipped after "//" includes
      newlines. */
  function CommentLineAsWritten(s: string, p: nat): (r: Option<Parsed<string>>)
    requires p <= |s|
    ensures r.Some? ==> p + 2 <= r.value.pos < |s|
  {
    match Tag(s, Sp(s, p), "//")
    case None => None
    case Some(q) => TakeUntilNewline(s, Sp(s, q))
  }

  /** `comment_line` with only spaces and tabs skipped after "//", so that a
      comment line never reaches past its own newline. */
  function CommentLine(s: string, p: nat): (r: Option<Parsed<string>>)
    requires p <= |s|
    ensures r.Some? ==> p + 2 <= r.value.pos < |s| && s[r.value.pos] == '\n'
  {
    match Tag(s, Sp(s, p), "//")
    case None => None
    case Some(q) => TakeUntilNewline(s, TakeWhile(s, q, Blank))
  }

  /** A comment line holds no newline between its "//" and its end. */
  lemma CommentLineOneLine(s: string, p: nat)
    requires p <= |s| && CommentLine(s, p).Some?
    ensures forall k :: Sp(s, p) <= k < CommentLine(s, p).value.pos ==> s[k] != '\n'
  {
    var q := Tag(s, Sp(s, p), "//").value;
    var b := TakeWhile(s, q, Blank);
    TakeWhileAll(s, q, Blank);
    TakeUntilNewlineSpec(s, b);
    TagSpec(s, Sp(s, p), "//");
    assert s[Sp(s, p)..Sp(s, p) + 2] == "//";
    assert s[Sp(s, p)] == s[Sp(s, p)..Sp(s, p) + 2][0];
    assert s[Sp(s, p) + 1] == s[Sp(s, p)..Sp(s, p) + 2][1];
  }

  /** The lines after the first of a comment: `many0(comment_line)`. */
  function MoreCommentLines(s: string, p: nat): (r: Parsed<seq<string>>)
    requires p <= |s|
    ensures p <= r.pos <= |s|
    decreases |s| - p
  {
    match CommentLine(s, p)
    case None => Parsed(p, [])
    case Some(l) =>
      var rest := MoreCommentLines(s, l.pos);
      Parsed(rest.pos, [l.value] + rest.value)
  }

  /** `comment`: one or more comment lines. */
  function CommentP(s: string, p: nat): (r: Option<Parsed<Comment>>)
    requires p <= |s|
    ensures r.Some? ==> p < r.value.pos <= |s| && |r.value.value.lines| >= 1
  {
    match CommentLine(s, p)
    case None => None
    case Some(l) =>
      var rest := MoreCommentLines(s, l.pos);
      Some(Parsed(rest.pos, Comment([l.value] + rest.value)))
  }

  /** `opt(comment)`: on failure, nothing is consumed. */
  function OptComment(s: string, p: nat): (r: Parsed<Option<Comment>>)
    requires p <= |s|
    ensures p <= r.pos <= |s|
    ensures r.value.None? ==> r.pos == p
  {
    match CommentP(s, p)
    case None => Parsed(p, None)
    case Some(c) => Parsed(c.pos, Some(c.value))
  }

  /** `field`: an optional comment, then `name : type`, both identifiers. */
  function FieldP(s: string, p: nat): (r: Option<Parsed<Field>>)
    requires p <= |s|
    ensures r.Some? ==> p < r.value.pos <= |s|
    ensures r.Some? ==> r.value.value.loc == NoLoc
  {
    var c := OptComment(s, p);
    var n := Id(s, Sp(s, c.pos));
    match Char(s, Sp(s, n.pos), ':')
    case None => None
    case Some(q) =>
      var t := Id(s, Sp(s, q));
      Some(Parsed(t.pos, Field(NoLoc, c.value, n.value, t.value)))
  }

  /** The fields after the first: each one after a comma.  A comma not
      followed by a field is left unread. */
  function MoreFields(s: string, p: nat): (r: Parsed<seq<Field>>)
    requires p <= |s|
    ensures p <= r.pos <= |s|
    decreases |s| - p
  {
    match Char(s, Sp(s, p), ',')
    case None => Parsed(p, [])
    case Some(q) =>
      match FieldP(s, q)
      case None => Parsed(p, [])
      case Some(f) =>
        var rest := MoreFields(s, f.pos);
        Parsed(rest.pos, [f.value] + rest.value)
  }

  /** `fields`: `separated_list` of fields with comma separators; no
      trailing comma is consumed. */
  function Fields(s: string, p: nat): (r: Parsed<seq<Field>>)
    requires p <= |s|
    ensures p <= r.pos <= |s|
  {
    match FieldP(s, p)
    case None => Parsed(p, [])
    case Some(f) =>
      var rest := MoreFields(s, f.pos);
      Parsed(rest.pos, [f.value] + rest.value)
  }

  /** A parenthesised field list, as both the parameters and the results
      are written. */
  function FieldList(s: string, p: nat): (r: Option<Parsed<seq<Field>>>)
    requires p <= |s|
    ensures r.Some? ==> p < r.value.pos <= |s|
  {
    match Char(s, p, '(')
    case None => None
    case Some(q) =>
      var fs := Fields(s, q);
      match Char(s, fs.pos, ')')
      case None => None
      case Some(e) => Some(Parsed(e, fs.value))
  }

  /** The optional `-> (results)`: when absent or malformed, nothing is
      consumed and the results are empty. */
  function OptResults(s: string, p: nat): (r: Parsed<seq<Field>>)
    requires p <= |s|
    ensures p <= r.pos <= |s|
  {
    match Tag(s, Sp(s, p), "->")
    case None => Parsed(p, [])
    case Some(q) =>
      match FieldList(s, Sp(s, q))
      case None => Parsed(p, [])
      case Some(rs) => Parsed(rs.pos, rs.value)
  }

  /** `fndecl`: an optional comment, "fn", a name, the parameters, then the
      optional results; absent results are empty. */
  function FnDecl(s: string, p: nat): (r: Option<Parsed<FunctionDecl>>)
    requires p <= |s|
    ensures r.Some? ==> p < r.value.pos <= |s|
  {
    var c := match CommentP(s, Sp(s, p)) case None => Parsed(p, None) case Some(x) => Parsed(x.pos, Some(x.value));
    match Tag(s, Sp(s, c.pos), "fn")
    case None => None
    case Some(q) =>
      var n := Id(s, Sp(s, q));
      match FieldList(s, Sp(s, n.pos))
      case None => None
      case Some(ps) =>
        var rs := OptResults(s, ps.pos);
        Some(Parsed(rs.pos, FunctionDecl(NoLoc, c.value, [], n.value, ps.value, rs.value)))
  }

  /** `structdecl`: "struct", a name, and a body of nothing but
      whitespace. */
  function StructP(s: string, p: nat): (r: Option<Parsed<StructDecl>>)
    requires p <= |s|
    ensures r.Some? ==> p < r.value.pos <= |s| && r.value.value.fields == []
  {
    match Tag(s, p, "struct")
    case None => None
    case Some(q) =>
      var n := Id(s, Sp(s, q));
      match Char(s, Sp(s, n.pos), '{')
      case None => None
      case Some(b) =>
        match Char(s, Sp(s, b), '}')
        case None => None
        case Some(e) => Some(Parsed(e, StructDecl(NoLoc, None, n.value, [])))
  }

  /** `NamespaceDecl::new` as the parser calls it: the items sorted into
      functions, structs and namespaces, each in order. */
  function Build(name: string, comment: Option<Comment>, items: seq<NamespaceItem>): (r: NamespaceDecl)
    ensures r.name == name && r.comment == comment && r.loc == NoLoc
    ensures |r.functions| + |r.structs| + |r.namespaces| == |items|
  {
    PartitionCount(items);
    NamespaceDecl(NoLoc, comment, name, FunctionsOf(items), StructsOf(items), NamespacesOf(items))
  }

  lemma {:induction false} PartitionCount(items: seq<NamespaceItem>)
    ensures |FunctionsOf(items)| + |StructsOf(items)| + |NamespacesOf(items)| == |items|
  {
    if items != [] {
      PartitionCount(items[..|items| - 1]);
    }
  }

  /** `nsitem`: a function, else a struct, else a namespace. */
  function NsItem(s: string, p: nat): (r: Option<Parsed<NamespaceItem>>)
    requires p <= |s|
    ensures r.Some? ==> p < r.value.pos <= |s|
    decreases |s| - p, 1
  {
    match FnDecl(s, p)
    case Some(f) => Some(Parsed(f.pos, FunctionItem(f.value)))
    case None =>
      match StructP(s, p)
      case Some(st) => Some(Parsed(st.pos, StructItem(st.value)))
      case None =>
        match NsDecl(s, p)
        case Some(n) => Some(Parsed(n.pos, NamespaceItem(n.value)))
        case None => None
  }

  /** `nsbody`: items, each after optional whitespace, until one fails; the
      whitespace before the failing one stays unread. */
  function NsBody(s: string, p: nat): (r: Parsed<seq<NamespaceItem>>)
    requires p <= |s|
    ensures p <= r.pos <= |s|
    decreases |s| - p, 2
  {
    match NsItem(s, Sp(s, p))
    case None => Parsed(p, [])
    case Some(it) =>
      var rest := NsBody(s, it.pos);
      Parsed(rest.pos, [it.value] + rest.value)
  }

  /** What `nsdecl` reads before the body: an optional comment,
      "namespace", a name and the opening brace. */
  datatype NsHead = NsHead(comment: Option<Comment>, name: string)

  function NsOpen(s: string, p: nat): (r: Option<Parsed<NsHead>>)
    requires p <= |s|
    ensures r.Some? ==> p < r.value.pos <= |s|
  {
    var c := OptComment(s, p);
    match Tag(s, Sp(s, c.pos), "namespace")
    case None => None
    case Some(q) =>
      var n := Id(s, Sp(s, q));
      match Char(s, Sp(s, n.pos), '{')
      case None => None
      case Some(b) => Some(Parsed(b, NsHead(c.value, n.value)))
  }

  /** What `nsdecl` reads after the body: the closing brace. */
  function NsClose(s: string, h: NsHead, body: Parsed<seq<NamespaceItem>>): (r: Option<Parsed<NamespaceDecl>>)
    requires body.pos <= |s|
    ensures r.Some? ==> body.pos < r.value.pos <= |s|
  {
    match Char(s, Sp(s, body.pos), '}')
    case None => None
    case Some(e) => Some(Parsed(e, Build(h.name, h.comment, body.value)))
  }

  /** `nsdecl`: an optional comment, "namespace", a name, and a body in
      braces. */
  function NsDecl(s: string, p: nat): (r: Option<Parsed<NamespaceDecl>>)
    requires p <= |s|
    ensures r.Some? ==> p < r.value.pos <= |s|
    decreases |s| - p, 0
  {
    match NsOpen(s, p)
    case None => None
    case Some(h) => NsClose(s, h.value, NsBody(s, h.pos))
  }

  /** The namespace declarations of `root`, each after optional
      whitespace. */
  function RootDecls(s: string, p: nat): (r: Parsed<seq<NamespaceDecl>>)
    requires p <= |s|
    ensures p <= r.pos <= |s|
    decreases |s| - p
  {
    match NsDecl(s, Sp(s, p))
    case None => Parsed(p, [])
    case Some(d) =>
      var rest := RootDecls(s, d.pos);
      Parsed(rest.pos, [d.value] + rest.value)
  }

  /** `root`: namespace declarations and trailing whitespace, which must
      make up the whole input.  Because nothing inside can fail for good,
      the only error is the one `all_consuming` reports, a single `Eof` entry
      at the first character left over. */
  function Root(s: string): (r: Result<seq<NamespaceDecl>, seq<ErrorEntry>>)
    ensures r.Ok? <==> Sp(s, RootDecls(s, 0).pos) == |s|
    ensures r.Ok? ==> r.value == RootDecls(s, 0).value
    ensures r.Err? ==> |r.error| == 1 && r.error[0].0 < |s| && r.error[0].1 == NomKind("Eof")
  {
    var ds := RootDecls(s, 0);
    var e := Sp(s, ds.pos);
    if e == |s| then Ok(ds.value) else Err([(e, NomKind("Eof"))])
  }
}
