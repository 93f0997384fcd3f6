/** The error side of the older generation (lavish/src/parser/errors.rs):
    sources and their line tables, how a parser's outcome becomes an
    `Error`, the diagnostic builder and the three-line text a diagnostic
    renders to, and `print_errors`, which renders nom's verbose error
    entries outermost first.

    Colours and bold text only wrap pieces in terminal escapes; the model
    keeps the colour of the caret as a value and renders the plain text. */
module LavishErrors {
  import opened Common
  import opened LavishSpan
  import opened LavishAst
  import opened NomChars
  import LavishParser

  // Sources

  /** `Source::new`: the name, the input and the input's `lines()`. */
  function NewSource(id: nat, name: string, input: string): (r: Source)
    ensures r.name == name && r.input == input
    ensures r.lines == [] <==> input == ""
    ensures forall k :: 0 <= k < |r.lines| ==> '\n' !in r.lines[k]
  {
    Source(id, name, input, Lines(input))
  }

  /** `Source::from_string`: a source held in memory, named "<memory>". */
  function FromString(id: nat, input: string): (r: Source)
    ensures r.name == "<memory>" && r.input == input
  {
    NewSource(id, "<memory>", input)
  }

  /** Without carriage returns, a source's line table joined by '\n' gives
      back its input, but for one final newline. */
  lemma SourceLinesJoin(id: nat, name: string, input: string)
    requires '\r' !in input
    ensures Join(NewSource(id, name, input).lines, "\n") == ChompNewline(input)
  {
    LinesJoin(input);
  }

  // Errors

  /** nom's `IResult` as `parse` sees it: the parser's output, an error, a
      failure, or a request for more input. */
  datatype Outcome<O> = Output(rest: nat, output: O) | ErrorOut(errs: seq<ErrorEntry>)
    | FailureOut(errs: seq<ErrorEntry>) | Incomplete

  /** The outcome of one of this model's parsers, which never ask for more
      input. */
  function FromRes<O>(r: Res<O>): (o: Outcome<O>)
    ensures !o.Incomplete?
    ensures o.Output? <==> r.Done?
    ensures !o.Output? ==> o.errs == r.errs
  {
    match r
    case Done(p, v) => Output(p, v)
    case Error(es) => ErrorOut(es)
    case Failure(es) => FailureOut(es)
  }

  /** `Error`: an I/O error (its message), a source error (nom's entries
      over the source), an unknown error, or a source error that was
      expected but did not come. */
  datatype Error = IO(message: string) | SourceError(source: Source, errs: seq<ErrorEntry>)
    | Unknown(source: Source) | UnexpectedSourceError(expected: string, actual: Option<Error>)

  /** `parse`: a parser's output is the result; an error or a failure is a
      source error holding nom's entries; anything else is unknown. */
  function Parse<O>(source: Source, res: Outcome<O>): (r: Result<O, Error>)
  {
    match res
    case ErrorOut(es) => Err(SourceError(source, es))
    case FailureOut(es) => Err(SourceError(source, es))
    case Incomplete => Err(Unknown(source))
    case Output(_, o) => Ok(o)
  }

  /** For the parsers of this model, `parse` gives the parsed value exactly
      when the parser is done, and otherwise a source error carrying the
      parser's own entries: never an unknown error. */
  lemma ParseOfRes<O>(source: Source, r: Res<O>)
    ensures Parse(source, FromRes(r)).Ok? <==> r.Done?
    ensures r.Done? ==> Parse(source, FromRes(r)).value == r.value
    ensures !r.Done? ==> Parse(source, FromRes(r)) == Err(SourceError(source, r.errs))
  {
  }

  /** `parse_rules`: the rules parser over the whole source. */
  function ParseRules(source: Source): (r: Result<Rules, Error>)
    ensures r.Ok? <==> LavishParser.RulesP(source).Done?
    ensures r.Ok? ==> r.value == LavishParser.RulesP(source).value
    ensures !r.Ok? ==> r == Err(SourceError(source, LavishParser.RulesP(source).errs))
  {
    Parse(source, FromRes(LavishParser.RulesP(source)))
  }

  /** `parse_schema`: the schema parser over the whole source.  Printing the
      parsed schema on the way out is left to the printer. */
  function ParseSchema(source: Source): (r: Result<Schema, Error>)
    ensures r.Ok? <==> LavishParser.SchemaP(source).Done?
    ensures r.Ok? ==> r.value == LavishParser.SchemaP(source).value
    ensures !r.Ok? ==> r == Err(SourceError(source, LavishParser.SchemaP(source).errs))
  {
    Parse(source, FromRes(LavishParser.SchemaP(source)))
  }

  /** The `Debug` text of an unknown error. */
  function UnknownText(source: Source): (r: string)
    ensures |r| > |source.name| && r[|r| - |source.name|..] == source.name
  {
    "An unknown parsing error occured in " + source.name
  }

  // Diagnostics

  datatype Color = Blue | Red

  /** A span and the line and column it starts at. */
  datatype Position = Position(span: Span, line: nat, column: nat)

  /** `DiagnosticBuilder`: the message stays unset until given. */
  datatype DiagnosticBuilder = DiagnosticBuilder(pos: Position, caretColor: Color, prefix: string, message: Option<string>)

  datatype Diagnostic = Diagnostic(pos: Position, caretColor: Color, prefix: string, message: string)

  /** `DiagnosticBuilder::new`: a blue caret, no prefix, no message. */
  function NewBuilder(pos: Position): DiagnosticBuilder
  {
    DiagnosticBuilder(pos, Blue, "", None)
  }

  function WithCaretColor(b: DiagnosticBuilder, c: Color): DiagnosticBuilder
  {
    b.(caretColor := c)
  }

  function WithPrefix(b: DiagnosticBuilder, prefix: string): DiagnosticBuilder
  {
    b.(prefix := prefix)
  }

  function WithMessage(b: DiagnosticBuilder, m: string): DiagnosticBuilder
  {
    b.(message := Some(m))
  }

  /** `build`: a message never given is empty. */
  function Build(b: DiagnosticBuilder): Diagnostic
  {
    Diagnostic(b.pos, b.caretColor, b.prefix, if b.message.Some? then b.message.value else "")
  }

  /** A builder built untouched gives a blue caret, no prefix and an empty
      message; each setter changes its own field and no other. */
  lemma BuilderDefaults(pos: Position, c: Color, prefix: string, m: string)
    ensures Build(NewBuilder(pos)) == Diagnostic(pos, Blue, "", "")
    ensures Build(WithCaretColor(NewBuilder(pos), c)) == Diagnostic(pos, c, "", "")
    ensures Build(WithPrefix(NewBuilder(pos), prefix)) == Diagnostic(pos, Blue, prefix, "")
    ensures Build(WithMessage(NewBuilder(pos), m)) == Diagnostic(pos, Blue, "", m)
  {
  }

  /** `Position::diag`: a builder at the position with the message. */
  function Diag(pos: Position, m: string): DiagnosticBuilder
  {
    WithMessage(NewBuilder(pos), m)
  }

  /** `diag_info`: a blue caret. */
  function DiagInfo(pos: Position, m: string): DiagnosticBuilder
  {
    WithCaretColor(Diag(pos, m), Blue)
  }

  /** `diag_err`: a red caret. */
  function DiagErr(pos: Position, m: string): DiagnosticBuilder
  {
    WithCaretColor(Diag(pos, m), Red)
  }

  /** An information diagnostic and an error diagnostic differ in the
      caret's colour only, and neither has a prefix. */
  lemma InfoAndErr(pos: Position, m: string)
    ensures Build(DiagInfo(pos, m)) == Diagnostic(pos, Blue, "", m)
    ensures Build(DiagErr(pos, m)) == Diagnostic(pos, Red, "", m)
  {
  }

  // Rendering

  /** How many '~' follow the caret: one fewer than the span's length, but
      never more than the room left on the line. */
  function Tildes(len: nat, room: nat): (t: nat)
  {
    var want := if len == 0 then 0 else len - 1;
    if want < room then want else room
  }

  /** The caret and its tildes mark exactly the span when it fits on the
      line, and never run past the line's end. */
  lemma TildesMark(len: nat, column: nat, lineLen: nat)
    requires column <= lineLen
    ensures column + Tildes(len, lineLen - column) <= lineLen
    ensures 1 <= len && column + len <= lineLen ==> 1 + Tildes(len, lineLen - column) == len
  {
  }

  /** `name:line:column:`, both numbers counted from 1. */
  function Loc(pos: Position): string
  {
    pos.span.source.name + ":" + NatToString(pos.line + 1) + ":" + NatToString(pos.column + 1) + ":"
  }

  /** The third line: the prefix, `column` spaces, the caret and its
      tildes. */
  function CaretLine(prefix: string, column: nat, tildes: nat): (r: string)
  {
    prefix + Spaces(column) + "^" + seq(tildes, _ => '~')
  }

  /** The caret stands `column` places after the prefix, with only spaces
      before it and only tildes after it. */
  lemma CaretAt(prefix: string, column: nat, tildes: nat)
    ensures var r := CaretLine(prefix, column, tildes);
      |r| == |prefix| + column + 1 + tildes && r[|prefix| + column] == '^'
      && (forall k :: |prefix| <= k < |prefix| + column ==> r[k] == ' ')
      && (forall k :: |prefix| + column < k < |r| ==> r[k] == '~')
  {
    var r := CaretLine(prefix, column, tildes);
    assert r == (prefix + Spaces(column)) + (['^'] + seq(tildes, _ => '~'));
    forall k | |prefix| <= k < |prefix| + column
      ensures r[k] == ' '
    {
      assert r[k] == Spaces(column)[k - |prefix|];
    }
    forall k | |prefix| + column < k < |r|
      ensures r[k] == '~'
    {
      assert r[k] == seq(tildes, _ => '~')[k - |prefix| - column - 1];
    }
  }

  /** `Display` of a diagnostic: the location and the message, the text
      line the position is on, and the caret line, each after the prefix
      and each ending in '\n'.  None where the source panics: a line the
      line table does not have, or a column past the end of its line. */
  function Render(d: Diagnostic): (r: Option<string>)
    ensures r.Some? <==> (d.pos.line < |d.pos.span.source.lines|
      && d.pos.column <= |d.pos.span.source.lines[d.pos.line]|)
  {
    var pos := d.pos;
    var lines := pos.span.source.lines;
    if pos.line >= |lines| || pos.column > |lines[pos.line]| then None
    else
      var text := lines[pos.line];
      Some(d.prefix + Loc(pos) + " " + d.message + "\n"
        + d.prefix + text + "\n"
        + CaretLine(d.prefix, pos.column, Tildes(pos.span.len, |text| - pos.column)) + "\n")
  }

  /** Where `Span::position` finds the span's offset on a line, the caret
      points at the character at that offset, provided the text has no
      carriage returns. */
  lemma CaretPointsAtOffset(sp: Span, l: nat, c: nat)
    requires '\r' !in sp.source.input && sp.source.lines == Lines(sp.source.input)
    requires FindLine(sp.source.lines, sp.offset) == Some((l, c))
    requires l < |sp.source.lines| && c < |sp.source.lines[l]|
    ensures PositionOf(sp) == (l, c)
    ensures sp.offset < |sp.source.input| && sp.source.lines[l][c] == sp.source.input[sp.offset]
  {
    FindLineSpec(sp.source.lines, sp.offset, l, c);
    LinesAt(sp.source.input, l, c);
  }

  /** The width of a line table whose first line is `x`. */
  lemma WidthCons(x: string, ys: seq<string>)
    ensures Width([x] + ys) == |x| + 1 + Width(ys)
  {
    assert ([x] + ys)[1..] == ys;
  }

  /** In a text without carriage returns, character `c` of line `l` stands
      after the earlier lines and their newlines. */
  lemma {:induction false} LinesAt(s: string, l: nat, c: nat)
    requires '\r' !in s && l < |Lines(s)| && c < |Lines(s)[l]|
    ensures Width(Lines(s)[..l]) + c < |s| && s[Width(Lines(s)[..l]) + c] == Lines(s)[l][c]
    decreases |s|
  {
    var ls := Lines(s);
    if IndexOf(s, '\n').None? {
      assert ls == [StripCr(s)];
      assert StripCr(s) == s;
      assert ls[..0] == [];
    } else {
      var k := IndexOf(s, '\n').value;
      var head := s[..k];
      var rest := s[k + 1..];
      assert '\r' !in head;
      assert StripCr(head) == head;
      assert ls == [head] + Lines(rest);
      if l == 0 {
        assert ls[..0] == [];
        assert ls[0] == head;
      } else {
        assert '\r' !in rest;
        var w := Width(Lines(rest)[..l - 1]);
        LinesAt(rest, l - 1, c);
        assert ls[..l] == [head] + Lines(rest)[..l - 1];
        WidthCons(head, Lines(rest)[..l - 1]);
        assert s[k + 1 + w + c] == rest[w + c];
      }
    }
  }

  // Printing nom's entries

  /** The character an entry's span starts with, '\0' at the end of the
      input. */
  function FoundChar(input: string, at: nat): (c: char)
    ensures at < |input| ==> c == input[at]
    ensures at >= |input| ==> c == '\0'
  {
    if at < |input| then input[at] else '\0'
  }

  /** The span an entry points at: the rest of the input from its offset. */
  function EntrySpan(src: Source, at: nat): Span
  {
    Span(src, at, if at <= |src.input| then |src.input| - at else 0)
  }

  function EntryMessage(input: string, e: ErrorEntry): string
  {
    match e.1
    case CharKind(c) => "expected '" + [c] + "', found " + [FoundChar(input, e.0)]
    case ContextKind(ctx) => "In " + ctx
    case NomKind(name) => "parsing error: " + name
  }

  /** The diagnostic for one entry: an information diagnostic for a
      context, an error diagnostic otherwise, at the entry's position. */
  function EntryDiagnostic(src: Source, e: ErrorEntry): (d: Diagnostic)
  {
    var sp := EntrySpan(src, e.0);
    var lc := PositionOf(sp);
    var pos := Position(sp, lc.0, lc.1);
    var m := EntryMessage(src.input, e);
    if e.1.ContextKind? then Build(DiagInfo(pos, m)) else Build(DiagErr(pos, m))
  }

  /** The entries' diagnostics rendered one after the other; None once one
      of them panics. */
  function Blocks(src: Source, es: seq<ErrorEntry>): Option<string>
  {
    if es == [] then Some("")
    else match Blocks(src, es[..|es| - 1])
      case None => None
      case Some(acc) =>
        match Render(EntryDiagnostic(src, es[|es| - 1]))
        case None => None
        case Some(t) => Some(acc + t)
  }

  /** What `print_errors` writes: a newline, then the entries' diagnostics
      from the last entry to the first. */
  function Printed(src: Source, errs: seq<ErrorEntry>): Option<string>
  {
    match Blocks(src, Reversed(errs))
    case None => None
    case Some(t) => Some("\n" + t)
  }

  /** `print_errors`: take the entries in reverse order, write a newline, then
      each entry's diagnostic, locating it with `Span::position`. */
  method PrintErrors(src: Source, errs: seq<ErrorEntry>) returns (out: Option<string>)
    ensures out == Printed(src, errs)
  {
    var rev := Reversed(errs);
    var text := "";
    var i := 0;
    while i < |rev|
      invariant 0 <= i <= |rev|
      invariant Blocks(src, rev[..i]) == Some(text)
    {
      var e := rev[i];
      var sp := EntrySpan(src, e.0);
      var line, column := LavishSpan.Position(sp);
      var pos := Position(sp, line, column);
      var m := EntryMessage(src.input, e);
      var d := if e.1.ContextKind? then Build(DiagInfo(pos, m)) else Build(DiagErr(pos, m));
      assert d == EntryDiagnostic(src, rev[i]);
      BlocksStep(src, rev, i, text);
      var t := Render(d);
      if t.None? {
        BlocksPanicSticks(src, rev, i + 1);
        return None;
      }
      text := text + t.value;
      i := i + 1;
    }
    assert rev[..i] == rev;
    return Some("\n" + text);
  }

  /** One more entry extends the blocks by its diagnostic, or panics. */
  lemma BlocksStep(src: Source, es: seq<ErrorEntry>, i: nat, text: string)
    requires i < |es| && Blocks(src, es[..i]) == Some(text)
    ensures var t := Render(EntryDiagnostic(src, es[i]));
      Blocks(src, es[..i + 1]) == if t.None? then None else Some(text + t.value)
  {
    assert es[..i + 1][..i] == es[..i] && es[..i + 1][i] == es[i];
  }

  /** A panic stops the printing: no later entry can undo it. */
  lemma {:induction false} BlocksPanicSticks(src: Source, es: seq<ErrorEntry>, n: nat)
    requires n <= |es| && Blocks(src, es[..n]).None?
    ensures Blocks(src, es).None?
    decreases |es| - n
  {
    if n < |es| {
      assert es[..n + 1][..n] == es[..n];
      BlocksPanicSticks(src, es, n + 1);
    } else {
      assert es[..n] == es;
    }
  }

  /** The blocks of a prefix of the entries start the blocks of them all. */
  lemma {:induction false} BlocksPrefix(src: Source, es: seq<ErrorEntry>, n: nat)
    requires n <= |es| && Blocks(src, es).Some?
    ensures Blocks(src, es[..n]).Some?
    ensures Blocks(src, es[..n]).value <= Blocks(src, es).value
    decreases |es| - n
  {
    if n == |es| {
      assert es[..n] == es;
    } else {
      var m := |es| - 1;
      assert es[..m][..n] == es[..n];
      BlocksPrefix(src, es[..m], n);
    }
  }

  /** nom's last entry is the outermost context: `print_errors` writes it
      first, straight after the opening newline. */
  lemma OutermostFirst(src: Source, errs: seq<ErrorEntry>)
    requires errs != [] && Printed(src, errs).Some?
    ensures var t := Render(EntryDiagnostic(src, errs[|errs| - 1]));
      t.Some? && "\n" + t.value <= Printed(src, errs).value
  {
    var rev := Reversed(errs);
    BlocksPrefix(src, rev, 1);
    var one := rev[..1];
    assert one[..0] == [];
    assert one[0] == errs[|errs| - 1];
    var t := Render(EntryDiagnostic(src, errs[|errs| - 1]));
    assert Blocks(src, one[..0]) == Some("");
    assert t.Some? && Blocks(src, one) == Some("" + t.value);
    assert "" + t.value == t.value;
    var b := Blocks(src, rev).value;
    assert Printed(src, errs).value == "\n" + b;
    assert "\n" + t.value == ("\n" + b)[..1 + |t.value|];
  }

  /** An empty input has no lines, and every entry renders a line of it:
      printing any entry of an empty source panics. */
  lemma EmptySourcePanics(src: Source, errs: seq<ErrorEntry>)
    requires src.lines == [] && errs != []
    ensures Printed(src, errs).None?
  {
    var rev := Reversed(errs);
    assert rev[..1][..0] == rev[..0];
    BlocksPanicSticks(src, rev, 1);
  }

  /** An empty rules file is refused for its missing target, and reporting
      that error panics: the source has no line to show. */
  lemma EmptyRulesPanics(id: nat, name: string)
    ensures ParseRules(NewSource(id, name, "")).Err?
    ensures Printed(NewSource(id, name, ""), ParseRules(NewSource(id, name, "")).error.errs).None?
  {
    var src := NewSource(id, name, "");
    SpNone(src.input, 0);
    assert LavishParser.RulesP(src) == Error([(0, NomKind("Tag"))]);
    EmptySourcePanics(src, [(0, NomKind("Tag"))]);
  }

  /** An expected character at the very end of the input is reported as
      found '\0'. */
  lemma CharAtEndFoundNul(input: string, c: char)
    ensures EntryMessage(input, (|input|, CharKind(c))) == "expected '" + [c] + "', found " + ['\0']
  {
  }

  /** `Display` of an error: the I/O error's message, the printed entries
      of a source error, "unknown error", or what an unexpected source
      error's `Debug` says.  None where printing panics. */
  function Display(e: Error): (r: Option<string>)
  {
    match e
    case IO(m) => Some(m)
    case SourceError(src, es) => Printed(src, es)
    case Unknown(_) => Some("unknown error")
    case UnexpectedSourceError(expected, actual) =>
      if actual.None? then Some("expected " + expected + ", got no error")
      else match Display(actual.value)
        case None => None
        case Some(t) => Some("expected " + expected + ", got " + t)
  }

  /** An unexpected source error shows what was expected and, after
      ", got ", what came instead. */
  lemma UnexpectedShowsBoth(expected: string, actual: Error)
    requires Display(actual).Some?
    ensures var r := Display(UnexpectedSourceError(expected, Some(actual))).value;
      r[..9 + |expected|] == "expected " + expected && r[9 + |expected| + 6..] == Display(actual).value
  {
    var r := Display(UnexpectedSourceError(expected, Some(actual))).value;
    assert r == ("expected " + expected) + (", got " + Display(actual).value);
  }
}
