/** What the grammar of src/parser/mod.rs promises, stated over the rules of
    `NewParser`: the committed `target` and `wrapper`, the default Rust
    wrapper, the one side keyword of a function, the lower-case type
    keywords tried before user types, an empty schema, and lone comment
    lines dropped from a body; and the comment that the head of a function
    as written loses. */
module NewParserFacts {
  import opened Common
  import opened NewSpan
  import opened NewAst
  import opened NomChars
  import opened NewParser

  // Rules files

  /** After `target`, a name other than rust, go or typescript is a
      failure: the `target_unknown` case, whose innermost entry is nom's
      `Tag`. */
  lemma TargetCommits(src: Source, p: nat)
    requires p <= |src.input| && SpacedTag(src.input, p, "target").Done?
    requires var a := Sp(src.input, SpacedTag(src.input, p, "target").pos);
      !MatchesAt(src.input, a, "rust") && !MatchesAt(src.input, a, "go") && !MatchesAt(src.input, a, "typescript")
    ensures var i := SpacedTag(src.input, p, "target").pos;
      TargetP(src, p) == Failure([(Sp(src.input, i), NomKind("Tag")), (i, NomKind("Alt")), (i, ContextKind("target directive"))])
  {
  }

  /** `target rust` with no braced body keeps the default wrapper, `mod`. */
  lemma RustDefaultsToMod(src: Source, p: nat)
    requires p <= |src.input| && SpacedTag(src.input, p, "target").Done?
    requires var i := SpacedTag(src.input, p, "target").pos;
      SpacedTag(src.input, i, "rust").Done? && !SpacedChar(src.input, SpacedTag(src.input, i, "rust").pos, '{').Done?
    ensures TargetP(src, p).Done? && TargetP(src, p).value == Rust(RustTarget(Mod))
  {
  }

  /** After `wrapper =`, a value other than none, mod or lib is a failure
      in the context of the wrapper. */
  lemma WrapperCommits(s: string, i: nat)
    requires i <= |s| && SpacedTag(s, i, "wrapper").Done?
    requires var k := SpacedTag(s, i, "wrapper").pos;
      SpacedChar(s, k, '=').Done? && (var a := SpacedChar(s, k, '=').pos;
        !MatchesAt(s, a, "none") && !MatchesAt(s, a, "mod") && !MatchesAt(s, a, "lib"))
    ensures var k := SpacedTag(s, i, "wrapper").pos; var a := SpacedChar(s, k, '=').pos;
      WrapperP(s, i) == Failure([(a, NomKind("Tag")), (a, NomKind("Alt")), (k, ContextKind("rust target wrapper"))])
  {
    var t := SpacedTag(s, i, "wrapper");
    var k := t.pos;
    var a := SpacedChar(s, k, '=').pos;
    var v := WrapperValue(s, k);
    assert v == Error([(a, NomKind("Tag")), (a, NomKind("Alt"))]);
    assert WrapperP(s, i) == Commit(v, k, "rust target wrapper");
  }

  /** The last `wrapper` item read decides the target's wrapper. */
  lemma {:induction false} LastWrapperWins(s: string, j: nat)
    requires j <= |s| && RustItems(s, j).Done? && RustItems(s, j).value != []
    ensures var items := RustItems(s, j).value;
      RustTargetOf(items).wrapper == items[|items| - 1].wrapper
      && exists k :: j <= k < |s| && WrapperP(s, k).Done? && WrapperP(s, k).value == items[|items| - 1].wrapper
    decreases |s| - j
  {
    var it := WrapperP(s, Sp(s, j));
    var rest := RustItems(s, Sp(s, it.pos));
    if rest.value != [] {
      LastWrapperWins(s, Sp(s, it.pos));
    }
  }

  // Functions

  /** A function's side is the keyword before `fn`, after its comment. */
  lemma FnDeclSide(src: Source, p: nat)
    requires p <= |src.input| && FnDecl(src, p).Done?
    ensures var a := Sp(src.input, OptComment(src.input, p).pos);
      (MatchesAt(src.input, a, "server") || MatchesAt(src.input, a, "client"))
      && (FnDecl(src, p).value.side == Server <==> MatchesAt(src.input, a, "server"))
  {
  }

  /** Two side keywords are refused: `server client fn` is no function. */
  lemma TwoSidesRefused(src: Source, p: nat)
    requires p <= |src.input|
    requires var a := Sp(src.input, OptComment(src.input, p).pos);
      MatchesAt(src.input, a, "server") && MatchesAt(src.input, Sp(src.input, a + 6), "client")
    ensures FnDecl(src, p).Error?
  {
    SideThenNoFn(src, p);
  }

  /** After `server`, a second side keyword stands where `fn` should. */
  lemma SideThenNoFn(src: Source, p: nat)
    requires p <= |src.input|
    requires var a := Sp(src.input, OptComment(src.input, p).pos);
      MatchesAt(src.input, a, "server") && MatchesAt(src.input, Sp(src.input, a + 6), "client")
    ensures FnHead(src, p, "fn").Error?
  {
    var c := OptComment(src.input, p);
    var a := Sp(src.input, c.pos);
    ServerThenClient(src.input, a);
    var t := SpacedTag(src.input, a + 6, "fn");
    assert FnHead(src, p, "fn") == Propagate(t);
  }

  lemma ServerThenClient(s: string, a: nat)
    requires a <= |s| && MatchesAt(s, a, "server") && MatchesAt(s, Sp(s, a + 6), "client")
    ensures SideAt(s, a) == Done(a + 6, Server) && SpacedTag(s, a + 6, "fn").Error?
  {
    var b := Sp(s, a + 6);
    assert s[b] == 'c' && !MatchesAt(s, b, "fn");
  }

  /** Without `->` after the parameters, a function has no results. */
  lemma NoArrowNoResults(src: Source, p: nat, i: nat, q: nat)
    requires p <= |src.input| && FnDecl(src, p).Done?
    requires FnHead(src, p, "fn").Done? && FnHead(src, p, "fn").pos == i
    requires NameParams(src, i).Done? && NameParams(src, i).pos == q
    requires Sp(src.input, q) == |src.input| || src.input[Sp(src.input, q)] != '-'
    ensures FnDecl(src, p).value.results == []
  {
    NoArrowRefused(src, q);
    var sg := FnSignature(src, i);
    assert sg.Done? ==> sg.value.results.None?;
    assert Commit(sg, i, "function declaration").Done?;
  }

  /** `results` fails, recoverably, where no `-` follows the whitespace. */
  lemma NoArrowRefused(src: Source, q: nat)
    requires q <= |src.input|
    requires Sp(src.input, q) == |src.input| || src.input[Sp(src.input, q)] != '-'
    ensures Results(src, q).Error?
  {
  }

  /** As written, a declaration head never carries a comment: the comment
      ends before its newline, where no side keyword can stand. */
  lemma AsWrittenHeadHasNoComment(src: Source, p: nat, kw: string)
    requires p <= |src.input| && |kw| > 0
    ensures FnHeadAsWritten(src, p, kw).Done? ==> FnHeadAsWritten(src, p, kw).value.comment.None?
  {
    var c := OptComment(src.input, p);
    if c.value.Some? {
      assert src.input[c.pos] == '\n';
      assert !MatchesAt(src.input, c.pos, "server") && !MatchesAt(src.input, c.pos, "client");
    }
  }

  /** With the whitespace before the side keyword read, a comment followed
      by `server fn` stays with the function's head. */
  lemma HeadKeepsComment(src: Source, p: nat)
    requires p <= |src.input| && OptComment(src.input, p).value.Some?
    requires var a := Sp(src.input, OptComment(src.input, p).pos);
      MatchesAt(src.input, a, "server") && SpacedTag(src.input, a + 6, "fn").Done?
    ensures FnHead(src, p, "fn").Done?
    ensures FnHead(src, p, "fn").value.comment == OptComment(src.input, p).value
    ensures FnHead(src, p, "fn").value.side == Server
  {
  }

  /** The comment line of `// doc\nserver fn`. */
  lemma DocLine(s: string)
    requires s == "// doc\nserver fn"
    ensures CommentLine(s, 0) == Done(6, "doc")
  {
    TakeWhileRun(s, 0, 0, Space);
    assert MatchesAt(s, 0, "//");
    TakeWhileRun(s, 2, 3, LineSpace);
    TakeWhileRun(s, 3, 6, NotNewline);
    assert s[3..6] == "doc";
  }

  /** After the comment line of `// doc\nserver fn`, the whitespace and the
      side keyword. */
  lemma DocAfterLine(s: string)
    requires s == "// doc\nserver fn"
    ensures Sp(s, 6) == 7 && MatchesAt(s, 7, "server")
    ensures CommentLines(s, 6) == Parsed(6, [])
  {
    TakeWhileRun(s, 6, 7, Space);
    assert !MatchesAt(s, 7, "//");
  }

  /** The comment line and the head of `// doc\nserver fn`. */
  lemma DocHeadPieces(src: Source)
    requires src.input == "// doc\nserver fn"
    ensures OptComment(src.input, 0) == Parsed(6, Some(Comment(["doc"])))
    ensures Sp(src.input, 6) == 7 && MatchesAt(src.input, 7, "server")
    ensures SpacedTag(src.input, 13, "fn") == Done(16, 14)
  {
    var s := src.input;
    DocLine(s);
    DocAfterLine(s);
    assert ["doc"] + [] == ["doc"];
    TakeWhileRun(s, 13, 14, Space);
    TakeWhileRun(s, 16, 16, Space);
    assert MatchesAt(s, 14, "fn");
  }

  /** `// doc\nserver fn`: as written the head is refused at the newline, so
      the comment is read as a lone comment line and the function that
      follows has none; read with the whitespace before `server`, the head
      keeps the comment. */
  lemma DocCommentLost(src: Source)
    requires src.input == "// doc\nserver fn"
    ensures FnHeadAsWritten(src, 0, "fn") == Error([(6, NomKind("Tag")), (6, NomKind("Alt"))])
    ensures FnHead(src, 0, "fn") == Done(16, Head(Some(Comment(["doc"])), Server, 16))
  {
    DocHeadPieces(src);
    assert !MatchesAt(src.input, 6, "server") && !MatchesAt(src.input, 6, "client");
  }

  // Types

  /** A base type name wins over a user type it begins: "database.Item"
      reads as `data`, leaving "base.Item". */
  lemma KeywordBeforeUser(src: Source, p: nat)
    requires p <= |src.input| && MatchesAt(src.input, p, "data")
    ensures Typ(src, p) == Done(Sp(src.input, p + 4), Type(Span(src, p, 4), Base(Data)))
  {
    var s := src.input;
    SpNone(s, p);
    assert s[p] == 'd';
    assert MapTyp(src, p).Error?;
    assert Wrapped(src, p, "array").Error?;
    assert Wrapped(src, p, "option").Error?;
    BaseTagSkips(s, p, 0, 12);
    assert BaseNames[12] == ("data", Data);
  }

  /** Base type names whose first letter differs from the input's are
      passed over. */
  lemma {:induction false} BaseTagSkips(s: string, a: nat, k: nat, m: nat)
    requires a < |s| && k <= m < |BaseNames|
    requires forall j :: k <= j < m ==> BaseNames[j].0[0] != s[a]
    ensures BaseTag(s, a, k) == BaseTag(s, a, m)
    decreases m - k
  {
    if k < m {
      assert BaseNames[k].0[0] != s[a];
      BaseTagSkips(s, a, k + 1, m);
    }
  }

  /** No base type name starts with a capital letter. */
  lemma {:induction false} NoBaseTag(s: string, a: nat, k: nat)
    requires a < |s| && 'A' <= s[a] <= 'Z' && k <= |BaseNames|
    ensures BaseTag(s, a, k) == None
    decreases |BaseNames| - k
  {
    if k < |BaseNames| {
      assert 'a' <= BaseNames[k].0[0] <= 'z';
      NoBaseTag(s, a, k + 1);
    }
  }

  /** Every type keyword is lower-case: a capitalised name, `Array` and
      `Map` included, reads as a user type. */
  lemma CapitalIsUser(src: Source, p: nat)
    requires p < |src.input| && 'A' <= src.input[p] <= 'Z'
    ensures Typ(src, p) == UserTyp(src, p) && Typ(src, p).Done?
  {
    var s := src.input;
    SpNone(s, p);
    NoBaseTag(s, p, 0);
  }

  // Bodies and schemas

  /** Where neither whitespace, nor '/', nor the first letter of `server`,
      `client`, `struct` or `namespace` stands, no namespace item starts. */
  lemma NoItemAt(src: Source, p: nat)
    requires p <= |src.input|
    requires p == |src.input| || (var c := src.input[p];
      !InClass(c, Space) && c != '/' && c != 'n' && c != 's' && c != 'c')
    ensures NsItem(src, p).Error?
  {
    var s := src.input;
    SpNone(s, p);
    assert CommentLine(s, p).Error?;
    assert OptComment(s, p) == Parsed(p, None);
    assert SideAt(s, p).Error?;
  }

  /** A schema of whitespace only is an empty namespace body, no imports. */
  lemma SchemaBlank(src: Source)
    requires forall k :: 0 <= k < |src.input| ==> InClass(src.input[k], Space)
    ensures SchemaP(src) == Done(|src.input|, Schema(Span(src, 0, 0), [], NamespaceBody([], [], [], [])))
  {
    var s := src.input;
    var n := |s|;
    TakeWhileRun(s, 0, n, Space);
    assert Sp(s, 0) == n;
    assert ImportP(src, n).Error?;
    assert Imports(src, 0) == Done(0, []);
    NoItemAt(src, n);
    assert NsItems(src, n) == Done(n, []);
    assert CommentLines(s, n) == Parsed(n, []);
    assert NsBody(src, n) == Done(n, NamespaceBody([], [], [], []));
    assert CommentLine(s, n).Error?;
    assert Trailer(s, n) == n;
  }

  /** A comment line that no declaration follows, only the body's closing
      brace, is read as an item that holds nothing. */
  lemma LoneCommentDropped(src: Source, p: nat)
    requires p <= |src.input| && CommentLine(src.input, p).Done?
    requires var e := Sp(src.input, OptComment(src.input, p).pos); e < |src.input| && src.input[e] == '}'
    ensures NsItem(src, p) == Done(CommentLine(src.input, p).pos, None)
  {
    var s := src.input;
    var c := OptComment(s, p).pos;
    var e := Sp(s, c);
    SpAgain(s, c);
    assert SideAt(s, e).Error?;
    assert FnDecl(src, p).Error?;
    assert NotifDecl(src, p).Error?;
  }
}
