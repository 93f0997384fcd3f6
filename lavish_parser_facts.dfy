/** What the grammar of lavish/src/parser/mod.rs promises, stated over the
    rules of `LavishParser`: identifiers and string literals, the committed
    `target`, one target per rules file, an empty schema, the order in which
    `typ` tries its alternatives, results defaulting to none, and lone
    comment lines dropped from a body. */
module LavishParserFacts {
  import opened Common
  import opened LavishSpan
  import opened LavishAst
  import opened NomChars
  import opened LavishParser

  // Reading runs of characters



  /** An identifier is a run of identifier characters. */
  lemma IdRun(src: Source, p: nat)
    requires p <= |src.input| && Id(src, p).Done?
    ensures forall k :: 0 <= k < |Id(src, p).value.text| ==> IsIdChar(Id(src, p).value.text[k])
  {
    var q := Id(src, p).pos;
    TakeWhileAll(src.input, p, IdChar);
    assert forall k :: 0 <= k < q - p ==> src.input[p..q][k] == src.input[p + k];
  }

  /** A string literal's value is a non-empty run of literal characters,
      so it holds no quote. */
  lemma StringLitRun(src: Source, p: nat)
    requires p <= |src.input| && StringLit(src, p).Done?
    ensures var v := StringLit(src, p).value.value;
      |v| > 0 && forall k :: 0 <= k < |v| ==> InClass(v[k], LitChar) && v[k] != '"'
  {
    var s := src.input;
    var q := StringLit(src, p).pos - 1;
    var v := s[p + 1..q];
    TakeWhileAll(s, p + 1, LitChar);
    assert forall k :: 0 <= k < |v| ==> v[k] == s[p + 1 + k];
  }

  // Rules files

  /** After `target`, a name other than rust, go or typescript is a
      failure, not an error: no alternative is tried after it. */
  lemma TargetCommits(src: Source, p: nat)
    requires p <= |src.input| && SpacedTag(src.input, p, "target").Done?
    requires var a := Sp(src.input, SpacedTag(src.input, p, "target").pos);
      !MatchesAt(src.input, a, "rust") && !MatchesAt(src.input, a, "go") && !MatchesAt(src.input, a, "typescript")
    ensures var i := SpacedTag(src.input, p, "target").pos;
      TargetP(src, p) == Failure([(Sp(src.input, i), NomKind("Tag")), (i, NomKind("Alt")), (i, ContextKind("target directive"))])
  {
  }


  /** A second `target` after the build directives is left over: the rules
      file is refused at it. */
  lemma RulesOneTarget(src: Source, i: nat, t: Target, b: nat, bs: seq<Build>)
    requires TargetP(src, 0) == Done(i, t) && i <= |src.input|
    requires Builds(src, Sp(src.input, i)) == Done(b, bs) && b <= |src.input|
    requires MatchesAt(src.input, Sp(src.input, b), "target")
    ensures RulesP(src) == Error([(Sp(src.input, b), NomKind("Eof"))])
  {
    var s := src.input;
    var x := Sp(s, b);
    SpAgain(s, b);
    assert CommentLine(src.input, x).Error?;
    assert SpacedCommentLines(src.input, x) == x;
    assert Trailer(src.input, b) == x;
  }

  // Nothing can start

  /** Where neither whitespace, nor '/', nor the first letter of a keyword
      stands, no namespace item starts. */
  lemma NoItemAt(src: Source, p: nat)
    requires p <= |src.input|
    requires p == |src.input| || (var c := src.input[p];
      !InClass(c, Space) && c != '/' && c != 'f' && c != 'n' && c != 's' && c != 'c')
    ensures NsItem(src, p).Error?
  {
    var s := src.input;
    SpNone(s, p);
    assert CommentLine(src.input, p).Error?;
    assert OptComment(src, p) == Parsed(p, None);
    assert FnMod(s, p) == None;
    assert FnMods(src, p) == Done(p, []);
    assert SpacedTag(src.input, p, "fn").Error?;
    assert SpacedTag(src.input, p, "nf").Error?;
  }

  /** A schema of whitespace only is an empty namespace body, no imports. */
  lemma SchemaBlank(src: Source)
    requires forall k :: 0 <= k < |src.input| ==> InClass(src.input[k], Space)
    ensures SchemaP(src) == Done(|src.input|, Schema(Span(src, 0, 0), [], NamespaceBody([], [], [])))
  {
    var s := src.input;
    var n := |s|;
    TakeWhileRun(s, 0, n, Space);
    assert Sp(s, 0) == n;
    assert ImportP(src, n).Error?;
    assert Imports(src, 0) == Done(0, []);
    NoItemAt(src, n);
    assert NsItems(src, n) == Done(n, []);
    assert CommentLines(src, n) == Parsed(n, []);
    assert NsBody(src, n) == Done(n, NamespaceBody([], [], []));
    assert CommentLine(src.input, n).Error?;
    assert Trailer(src.input, n) == n;
  }

  // Types

  /** A base type name wins over a user type it begins: "boolean" reads as
      `bool`, leaving "ean". */
  lemma KeywordBeforeUser(src: Source, p: nat)
    requires p <= |src.input| && MatchesAt(src.input, p, "bool")
    ensures Typ(src, p) == Done(Sp(src.input, p + 4), Type(Span(src, p, 4), Base(Bool)))
  {
    var s := src.input;
    SpNone(s, p);
    assert s[p] == 'b';
    assert BaseTag(s, p, 0) == Some(("bool", Bool));
  }

  /** No base type name starts with a capital letter. */
  lemma {:induction false} NoBaseTag(s: string, a: nat, k: nat)
    requires a < |s| && 'A' <= s[a] <= 'Z' && k <= |BaseNames|
    ensures BaseTag(s, a, k) == None
    decreases |BaseNames| - k
  {
    if k < |BaseNames| {
      assert 'a' <= BaseNames[k].0[0] <= 'z';
      NoBaseTag(s, a, k + 1);
    }
  }

  /** At `p` stands `kw` followed, after whitespace, by `<`: the opening of
      `Map<`, `Array<` or `Option<`. */
  predicate OpensWrapper(s: string, p: nat, kw: string)
    requires p <= |s|
  {
    MatchesAt(s, p, kw) && SpacedChar(s, p + |kw|, '<').Done?
  }

  /** A tagged wrapper whose `<` does not follow is a plain error, so `typ`
      goes on to its next alternative. */
  lemma WrapperRefused(src: Source, p: nat, kw: string)
    requires p < |src.input| && 'A' <= src.input[p] <= 'Z' && |kw| > 0
    requires !OpensWrapper(src.input, p, kw)
    ensures Wrapped(src, p, kw).Error?
  {
    var s := src.input;
    SpNone(s, p);
    if MatchesAt(s, p, kw) {
      SpAgain(s, p + |kw|);
    }
  }

  /** A capitalised name reads as a user type, the whole run of name
      characters and dots, unless it opens `Map<`, `Array<` or `Option<`:
      "Message", "Apple" or "Other" are user types. */
  lemma CapitalIsUser(src: Source, p: nat)
    requires p < |src.input| && 'A' <= src.input[p] <= 'Z'
    requires !OpensWrapper(src.input, p, "Map")
    requires !OpensWrapper(src.input, p, "Array")
    requires !OpensWrapper(src.input, p, "Option")
    ensures Typ(src, p) == UserTyp(src, p) && Typ(src, p).Done?
  {
    var s := src.input;
    SpNone(s, p);
    if MatchesAt(s, p, "Map") {
      SpAgain(s, p + 3);
    }
    assert MapTyp(src, p).Error?;
    WrapperRefused(src, p, "Array");
    WrapperRefused(src, p, "Option");
    NoBaseTag(s, p, 0);
  }

  // Functions

  /** Without `->` after the parameters, a function has no results. */
  lemma NoArrowNoResults(src: Source, p: nat, i: nat, q: nat)
    requires p <= |src.input| && FnDecl(src, p).Done?
    requires FnHead(src, p, "fn").Done? && FnHead(src, p, "fn").pos == i
    requires NameParams(src, i).Done? && NameParams(src, i).pos == q
    requires Sp(src.input, q) == |src.input| || src.input[Sp(src.input, q)] != '-'
    ensures FnDecl(src, p).value.results == []
  {
    NoArrowRefused(src, q);
    var sg := FnSignature(src, i);
    assert sg.Done? ==> sg.value.results.None?;
    assert Commit(sg, i, "function declaration").Done?;
  }

  /** `results` fails, recoverably, where no `-` follows the whitespace. */
  lemma NoArrowRefused(src: Source, q: nat)
    requires q <= |src.input|
    requires Sp(src.input, q) == |src.input| || src.input[Sp(src.input, q)] != '-'
    ensures Results(src, q).Error?
  {
  }


  // Bodies

  /** A comment line that no declaration follows, only the body's closing
      brace, is read as an item that holds nothing. */
  lemma LoneCommentDropped(src: Source, p: nat)
    requires p <= |src.input| && CommentLine(src.input, p).Done?
    requires var e := Sp(src.input, OptComment(src, p).pos); e < |src.input| && src.input[e] == '}'
    ensures NsItem(src, p) == Done(CommentLine(src.input, p).pos, None)
  {
    var s := src.input;
    var c := OptComment(src, p).pos;
    var e := Sp(s, c);
    SpAgain(s, c);
    assert FnMod(s, e) == None;
    assert FnMods(src, c) == Done(e, []);
    assert SpacedTag(src.input, e, "fn").Error?;
    assert SpacedTag(src.input, e, "nf").Error?;
    assert FnDecl(src, p).Error?;
    assert NotifDecl(src, p).Error?;
  }
}
