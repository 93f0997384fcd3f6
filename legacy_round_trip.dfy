/** What the grammar of src/parser.rs reads from text laid out as a printer
    would write it: a field `name: type`, a keyword followed by a name, an
    empty struct, the comma-separated continuation of a field list, the
    order in which `nsitem` tries its alternatives, and how `nsdecl` puts its
    head, body and closing brace together.  Names and types here are
    non-empty identifiers, locations are empty and nothing carries a
    comment. */
module LegacyRoundTrip {
  import opened Common
  import opened LegacyAst
  import opened LegacyParser

  // Printing

  predicate IsName(x: string)
  {
    |x| > 0 && forall k :: 0 <= k < |x| ==> IsIdChar(x[k])
  }

  predicate WfField(f: Field)
  {
    f == Field(NoLoc, None, f.name, f.typ) && IsName(f.name) && IsName(f.typ)
  }

  predicate WfStruct(st: StructDecl)
  {
    st == StructDecl(NoLoc, None, st.name, []) && IsName(st.name)
  }

  function FieldText(f: Field): string
  {
    f.name + ": " + f.typ
  }

  /** A keyword, one space, a name. */
  function Word(kw: string, name: string): string
  {
    kw + " " + name
  }

  function StructText(st: StructDecl): string
  {
    Word("struct", st.name) + " {}"
  }

  // Reading text at a position

  /** `t` sits in `s` at `p`, compared character by character. */
  predicate At(s: string, p: nat, t: string)
  {
    p + |t| <= |s| && MatchesAt(s, p, t)
  }

  lemma {:induction false} AtSplit(s: string, p: nat, a: string, b: string)
    requires At(s, p, a + b)
    ensures At(s, p, a) && At(s, p + |a|, b)
    decreases |a|
  {
    if |a| > 0 {
      assert (a + b)[0] == a[0] && (a + b)[1..] == a[1..] + b;
      AtSplit(s, p + 1, a[1..], b);
    } else {
      assert a + b == b;
    }
  }

  lemma {:induction false} AtChar(s: string, p: nat, t: string, k: nat)
    requires At(s, p, t) && k < |t|
    ensures s[p + k] == t[k]
    decreases k
  {
    if k > 0 {
      AtChar(s, p + 1, t[1..], k - 1);
    }
  }

  /** What sits at `p` is the slice of `s` from `p`. */
  lemma AtSlice(s: string, p: nat, t: string)
    requires At(s, p, t)
    ensures s[p..p + |t|] == t
  {
    forall k | 0 <= k < |t|
      ensures s[p..p + |t|][k] == t[k]
    {
      AtChar(s, p, t, k);
    }
  }

  /** A run of `f` characters ending before a non-`f` character. */
  lemma {:induction false} TakeWhileRun(s: string, p: nat, q: nat, cl: CharClass)
    requires p <= q <= |s|
    requires forall k :: p <= k < q ==> InClass(s[k], cl)
    requires q == |s| || !InClass(s[q], cl)
    ensures TakeWhile(s, p, cl) == q
    decreases q - p
  {
    if p < q {
      TakeWhileRun(s, p + 1, q, cl);
    }
  }

  /** No whitespace: `sp` reads nothing. */
  lemma SpNone(s: string, p: nat)
    requires p <= |s| && (p == |s| || !IsSpace(s[p]))
    ensures Sp(s, p) == p
  {
  }

  /** One space before a non-space: `sp` reads exactly it. */
  lemma SpOne(s: string, p: nat)
    requires p + 1 <= |s| && s[p] == ' ' && (p + 1 == |s| || !IsSpace(s[p + 1]))
    ensures Sp(s, p) == p + 1
  {
    TakeWhileRun(s, p, p + 1, Space);
  }

  /** An identifier followed by a character that cannot extend it. */
  lemma IdAt(s: string, p: nat, x: string)
    requires At(s, p, x) && forall k :: 0 <= k < |x| ==> IsIdChar(x[k])
    requires p + |x| == |s| || !IsIdChar(s[p + |x|])
    ensures Id(s, p) == Parsed(p + |x|, x)
  {
    forall k | p <= k < p + |x|
      ensures IsIdChar(s[k])
    {
      AtChar(s, p, x, k - p);
    }
    TakeWhileRun(s, p, p + |x|, IdChar);
    AtSlice(s, p, x);
  }

  /** A tag whose first character is not the one at `p` is not there. */
  lemma TagMiss(s: string, p: nat, t: string)
    requires p < |s| && |t| > 0 && s[p] != t[0]
    ensures Tag(s, p, t) == None
  {
  }

  /** No comment starts where, after whitespace, something other than '/'
      stands. */
  lemma NoComment(s: string, p: nat)
    requires p <= |s|
    requires Sp(s, p) < |s| && s[Sp(s, p)] != '/'
    ensures CommentP(s, p) == None
    ensures OptComment(s, p) == Parsed(p, None)
  {
    TagMiss(s, Sp(s, p), "//");
    assert CommentLine(s, p) == None;
  }

  /** A keyword, a space and a name, followed by something that cannot
      extend the name: the tag, the whitespace and the identifier are
      read as printed. */
  lemma WordAt(s: string, p: nat, kw: string, name: string)
    requires |kw| > 0 && IsName(name) && At(s, p, Word(kw, name))
    requires p + |Word(kw, name)| < |s| && !IsIdChar(s[p + |Word(kw, name)|])
    ensures s[p] == kw[0]
    ensures Tag(s, p, kw) == Some(p + |kw|)
    ensures Sp(s, p + |kw|) == p + |kw| + 1
    ensures Id(s, p + |kw| + 1) == Parsed(p + |Word(kw, name)|, name)
  {
    AtSplit(s, p, kw + " ", name);
    AtSplit(s, p, kw, " ");
    AtChar(s, p, kw, 0);
    AtChar(s, p + |kw|, " ", 0);
    AtChar(s, p + |kw| + 1, name, 0);
    SpOne(s, p + |kw|);
    IdAt(s, p + |kw| + 1, name);
  }

  // Fields

  /** `field` once each of its pieces is known. */
  lemma FieldStep(s: string, p: nat, x: nat, n: nat, name: string, typ: string, e: nat)
    requires p <= x <= n && n + 2 <= |s| && OptComment(s, p) == Parsed(p, None) && Sp(s, p) == x
    requires Id(s, x) == Parsed(n, name) && Sp(s, n) == n && Char(s, n, ':') == Some(n + 1)
    requires Sp(s, n + 1) == n + 2 && Id(s, n + 2) == Parsed(e, typ)
    ensures FieldP(s, p) == Some(Parsed(e, Field(NoLoc, None, name, typ)))
  {
  }

  /** An identifier, then `: ` and another identifier. */
  lemma NameColonType(s: string, x: nat, name: string, typ: string)
    requires IsName(name) && IsName(typ) && At(s, x, name + ": " + typ)
    requires x + |name + ": " + typ| < |s| && !IsIdChar(s[x + |name + ": " + typ|])
    ensures x < |s| && IsIdChar(s[x]) && Id(s, x) == Parsed(x + |name|, name)
    ensures Sp(s, x + |name|) == x + |name|
    ensures Char(s, x + |name|, ':') == Some(x + |name| + 1)
    ensures Sp(s, x + |name| + 1) == x + |name| + 2
    ensures Id(s, x + |name| + 2) == Parsed(x + |name + ": " + typ|, typ)
  {
    AtSplit(s, x, name + ": ", typ);
    AtSplit(s, x, name, ": ");
    var n := x + |name|;
    AtChar(s, x, name, 0);
    AtChar(s, n, ": ", 0);
    AtChar(s, n, ": ", 1);
    IdAt(s, x, name);
    SpNone(s, n);
    AtChar(s, n + 2, typ, 0);
    SpOne(s, n + 1);
    IdAt(s, n + 2, typ);
  }

  /** A printed field, reached from `p` over whitespace ending at `x`. */
  lemma FieldAt(s: string, p: nat, x: nat, f: Field)
    requires p <= x <= |s| && Sp(s, p) == x
    requires WfField(f) && At(s, x, FieldText(f))
    requires x + |FieldText(f)| < |s| && !IsIdChar(s[x + |FieldText(f)|])
    ensures FieldP(s, p) == Some(Parsed(x + |FieldText(f)|, f))
  {
    NameColonType(s, x, f.name, f.typ);
    NoComment(s, p);
    FieldStep(s, p, x, x + |f.name|, f.name, f.typ, x + |FieldText(f)|);
  }

  /** A printed field starts with an identifier character. */
  lemma FieldTextStart(f: Field)
    requires WfField(f)
    ensures |FieldText(f)| > 0 && IsIdChar(FieldText(f)[0])
  {
    assert FieldText(f)[0] == f.name[0];
  }

  /** The characters of ", " and a field. */
  lemma CommaFieldAt(s: string, p: nat, f: Field, rest: string)
    requires WfField(f) && At(s, p, ", " + FieldText(f) + rest)
    ensures p + 2 < |s| && s[p] == ',' && s[p + 1] == ' ' && !IsSpace(s[p + 2])
    ensures At(s, p + 2, FieldText(f)) && At(s, p + 2 + |FieldText(f)|, rest)
  {
    AtSplit(s, p, ", " + FieldText(f), rest);
    AtSplit(s, p, ", ", FieldText(f));
    AtChar(s, p, ", ", 0);
    AtChar(s, p, ", ", 1);
    FieldTextStart(f);
    AtChar(s, p + 2, FieldText(f), 0);
  }

  lemma MoreFieldsOne(s: string, p: nat, f: Field, e: nat)
    requires p + 2 < |s| && s[p] == ',' && s[p + 1] == ' ' && !IsSpace(s[p + 2])
    requires WfField(f) && At(s, p + 2, FieldText(f)) && e == p + 2 + |FieldText(f)|
    requires e < |s| && !IsIdChar(s[e])
    ensures MoreFields(s, p) == Parsed(MoreFields(s, e).pos, [f] + MoreFields(s, e).value)
  {
    SpNone(s, p);
    SpOne(s, p + 1);
    FieldAt(s, p + 1, p + 2, f);
  }

  lemma MoreFieldsNone(s: string, p: nat)
    requires p < |s| && s[p] == ')'
    ensures MoreFields(s, p) == Parsed(p, [])
  {
    SpNone(s, p);
  }

  // Results, names and structs

  /** No arrow after the parameters: `opt` gives back the empty results and
      nothing is consumed. */
  lemma NoArrow(s: string, x: nat)
    requires x <= |s| && (Sp(s, x) == |s| || s[Sp(s, x)] != '-')
    ensures OptResults(s, x) == Parsed(x, [])
  {
    if Sp(s, x) < |s| {
      TagMiss(s, Sp(s, x), "->");
    } else {
      assert !MatchesAt(s, Sp(s, x), "->");
    }
  }

  /** `id` reads an empty name where no identifier character stands. */
  lemma IdEmpty(s: string, p: nat)
    requires p <= |s| && (p == |s| || !IsIdChar(s[p]))
    ensures Id(s, p) == Parsed(p, [])
  {
    TakeWhileRun(s, p, p, IdChar);
  }

  lemma StructStep(s: string, p: nat, n: nat, name: string)
    requires p + 7 <= n && n + 3 <= |s| && Tag(s, p, "struct") == Some(p + 6)
    requires Sp(s, p + 6) == p + 7 && Id(s, p + 7) == Parsed(n, name)
    requires Sp(s, n) == n + 1 && s[n + 1] == '{' && Sp(s, n + 2) == n + 2 && s[n + 2] == '}'
    ensures StructP(s, p) == Some(Parsed(n + 3, StructDecl(NoLoc, None, name, [])))
  {
  }

  lemma StructAt(s: string, p: nat, st: StructDecl)
    requires WfStruct(st) && At(s, p, StructText(st))
    ensures StructP(s, p) == Some(Parsed(p + |StructText(st)|, st))
  {
    var w := Word("struct", st.name);
    var n := p + |w|;
    AtSplit(s, p, w, " {}");
    AtChar(s, n, " {}", 0);
    AtChar(s, n, " {}", 1);
    AtChar(s, n, " {}", 2);
    WordAt(s, p, "struct", st.name);
    SpOne(s, n);
    SpNone(s, n + 2);
    StructStep(s, p, n, st.name);
  }

  // Items

  /** Nothing starting with a character other than 'f' is a function. */
  lemma NoFn(s: string, p: nat)
    requires p < |s| && s[p] != 'f' && s[p] != '/' && !IsSpace(s[p])
    ensures FnDecl(s, p) == None
  {
    SpNone(s, p);
    NoComment(s, p);
    TagMiss(s, p, "fn");
  }

  lemma NoStruct(s: string, p: nat)
    requires p < |s| && s[p] != 's'
    ensures StructP(s, p) == None
  {
    TagMiss(s, p, "struct");
  }

  /** No namespace starts at `p` when, after whitespace, something other than
      'n' or '/' stands, or nothing at all. */
  lemma NoNs(s: string, p: nat)
    requires p <= |s|
    requires Sp(s, p) == |s| || (s[Sp(s, p)] != 'n' && s[Sp(s, p)] != '/')
    ensures NsDecl(s, p) == None
  {
    if Sp(s, p) < |s| {
      NoComment(s, p);
      TagMiss(s, Sp(s, p), "namespace");
    } else {
      assert Tag(s, Sp(s, p), "//") == None;
      assert CommentLine(s, p) == None;
      assert Tag(s, Sp(s, p), "namespace") == None;
    }
  }

  /** The closing brace ends a body: no item starts there. */
  lemma NoItemAtBrace(s: string, p: nat)
    requires p < |s| && s[p] == '}'
    ensures NsItem(s, p) == None
  {
    NoFn(s, p);
    NoStruct(s, p);
    SpNone(s, p);
    NoNs(s, p);
  }

  lemma ItemFn(s: string, p: nat, f: Parsed<FunctionDecl>)
    requires p <= |s| && FnDecl(s, p) == Some(f)
    ensures NsItem(s, p) == Some(Parsed(f.pos, FunctionItem(f.value)))
  {
  }

  lemma ItemStruct(s: string, p: nat, st: Parsed<StructDecl>)
    requires p <= |s| && FnDecl(s, p) == None && StructP(s, p) == Some(st)
    ensures NsItem(s, p) == Some(Parsed(st.pos, StructItem(st.value)))
  {
  }

  lemma ItemNs(s: string, p: nat, d: Parsed<NamespaceDecl>)
    requires p <= |s| && FnDecl(s, p) == None && StructP(s, p) == None && NsDecl(s, p) == Some(d)
    ensures NsItem(s, p) == Some(Parsed(d.pos, NamespaceItem(d.value)))
  {
  }


  // The whole input

  /** Input that is all whitespace, or empty, is a module without
      namespaces. */
  lemma RootBlank(s: string)
    requires forall k :: 0 <= k < |s| ==> IsSpace(s[k])
    ensures Root(s) == Ok([])
  {
    TakeWhileRun(s, 0, |s|, Space);
    NoNs(s, |s|);
  }

  /** When the first non-blank character can start neither a comment nor a
      namespace, nothing is read and `all_consuming` reports it. */
  lemma RootLeftover(s: string)
    requires Sp(s, 0) < |s| && s[Sp(s, 0)] != 'n' && s[Sp(s, 0)] != '/'
    ensures Root(s) == Err([(Sp(s, 0), NomKind("Eof"))])
  {
    SpNone(s, Sp(s, 0));
    NoNs(s, Sp(s, 0));
  }

  // Comment lines

  /** An empty comment "//" ends at its newline under `CommentLine`; as
      written, the rule skips that newline as whitespace and takes the
      following line for the comment's text. */
  lemma CommentSwallowsNextLine(s: string, p: nat, x: string)
    requires At(s, p, "//\n" + x + "\n")
    requires x != "" && !IsSpace(x[0]) && '\n' !in x
    ensures CommentLine(s, p) == Some(Parsed(p + 2, ""))
    ensures CommentLineAsWritten(s, p) == Some(Parsed(p + 3 + |x|, x))
  {
    AtSplit(s, p, "//\n" + x, "\n");
    AtSplit(s, p, "//\n", x);
    AtSplit(s, p, "//", "\n");
    AtChar(s, p, "//", 0);
    AtChar(s, p + 2, "\n", 0);
    AtChar(s, p + 3, x, 0);
    AtChar(s, p + 3 + |x|, "\n", 0);
    SpNone(s, p);
    EmptyCommentLine(s, p);
    TakeWhileRun(s, p + 2, p + 3, Space);
    forall k | p + 3 <= k < p + 3 + |x|
      ensures InClass(s[k], NotNewline)
    {
      AtChar(s, p + 3, x, k - p - 3);
    }
    TakeWhileRun(s, p + 3, p + 3 + |x|, NotNewline);
    AtSlice(s, p + 3, x);
  }

  lemma EmptyCommentLine(s: string, p: nat)
    requires At(s, p, "//") && p + 2 < |s| && s[p + 2] == '\n' && Sp(s, p) == p
    ensures Tag(s, p, "//") == Some(p + 2)
    ensures CommentLine(s, p) == Some(Parsed(p + 2, ""))
  {
    assert TakeWhile(s, p + 2, Blank) == p + 2;
    assert TakeWhile(s, p + 2, NotNewline) == p + 2;
    assert |s[p + 2..p + 2]| == 0;
  }
}
