/** The error side of the newer generation (src/parser/errors.rs): sources
    named after their path, how a parser's outcome becomes an `Error`, the
    builder-made diagnostic with its no-position fallback, and
    `print_errors`.

    `Span::position` is not part of this model (the newer span has no such
    method): where an entry's span is placed is the parameter `locate`,
    from offset to line and column.  The top-level `parser::module` that
    `parse` calls is not part of this model either: `parse` is stated over
    any parser's outcome.  Colours are kept as values, the text is plain. */
module NewErrors {
  import opened Common
  import opened NewSpan
  import opened NomChars

  // Sources

  /** The name `Source::new` gives a path as written: every "./" removed,
      wherever it stands. */
  function NameAsWritten(inputName: string): (r: string)
    ensures |r| <= |inputName|
  {
    ReplaceByEmptyShrinks(inputName, "./");
    Replace(inputName, "./", "")
  }

  /** As written, a path to the parent directory loses the second dot of
      its "../": "../a" is named ".a". */
  lemma ParentPathMangled()
    ensures NameAsWritten("../a") == ".a"
  {
    assert "../a"[..2] == "..";
    assert "../a"[1..] == "./a";
    assert "./a"[..2] == "./";
    assert "./a"[2..] == "a";
    assert Replace("a", "./", "") == "a";
  }

  /** The name of a source read from `inputName`: leading "./" steps
      removed. */
  function SourceName(inputName: string): (r: string)
    decreases |inputName|
  {
    if |inputName| >= 2 && inputName[..2] == "./" then SourceName(inputName[2..]) else inputName
  }

  /** A source's name is what is left of its path after some leading "./"
      steps, and it does not start with one; a path that does not start
      with "./" keeps its name, "../" included. */
  lemma {:induction false} SourceNameStrips(inputName: string)
    ensures var r := SourceName(inputName);
      |r| <= |inputName| && inputName[|inputName| - |r|..] == r
      && !(|r| >= 2 && r[..2] == "./")
    ensures !(|inputName| >= 2 && inputName[..2] == "./") ==> SourceName(inputName) == inputName
    decreases |inputName|
  {
    if |inputName| >= 2 && inputName[..2] == "./" {
      var rest := inputName[2..];
      SourceNameStrips(rest);
      var r := SourceName(rest);
      assert inputName[|inputName| - |r|..] == rest[|rest| - |r|..];
    }
  }

  /** The parent path of the as-written example keeps its name. */
  lemma ParentPathKept()
    ensures SourceName("../a") == "../a"
  {
    assert "../a"[..2] == "..";
  }

  /** `Source::new`, once the file at `inputName` has been read into
      `input`: the path as its name, the input, the input's `lines()`. */
  function NewSource(id: nat, inputName: string, input: string): (r: Source)
    ensures r.name == SourceName(inputName) && r.input == input
    ensures r.lines == [] <==> input == ""
    ensures forall k :: 0 <= k < |r.lines| ==> '\n' !in r.lines[k]
  {
    Source(id, SourceName(inputName), input, Lines(input))
  }

  // Errors

  /** nom's `IResult` as `parse` sees it. */
  datatype Outcome<O> = Output(rest: nat, output: O) | ErrorOut(errs: seq<ErrorEntry>)
    | FailureOut(errs: seq<ErrorEntry>) | Incomplete

  datatype Error = IO(message: string) | SourceError(source: Source, errs: seq<ErrorEntry>) | Unknown(source: Source)

  /** `parse`: a parser's output is the result; an error or a failure is a
      source error holding nom's entries; anything else is unknown. */
  function Parse<O>(source: Source, res: Outcome<O>): (r: Result<O, Error>)
  {
    match res
    case ErrorOut(es) => Err(SourceError(source, es))
    case FailureOut(es) => Err(SourceError(source, es))
    case Incomplete => Err(Unknown(source))
    case Output(_, o) => Ok(o)
  }

  /** Only a request for more input is an unknown error; an error and a
      failure both keep nom's entries, and an output is the result. */
  lemma ParseKinds<O>(source: Source, res: Outcome<O>)
    ensures Parse(source, res).Ok? <==> res.Output?
    ensures res.Output? ==> Parse(source, res).value == res.output
    ensures Parse(source, res) == Err(Unknown(source)) <==> res.Incomplete?
    ensures (res.ErrorOut? || res.FailureOut?) ==> Parse(source, res) == Err(SourceError(source, res.errs))
  {
  }

  // Diagnostics

  datatype Color = Blue | Red

  datatype Position = Position(span: Span, line: nat, column: nat)

  datatype Diagnostic = Diagnostic(pos: Option<Position>, caretColor: Color, prefix: string, message: string)

  /** `Diagnostic::default`: no position, a blue caret, no prefix, no
      message. */
  function DefaultDiagnostic(): Diagnostic
  {
    Diagnostic(None, Blue, "", "")
  }

  /** The builder `derive_builder` makes: every field unset until its
      setter is called; `build` takes unset fields from the default. */
  class DiagnosticBuilder {
    var pos: Option<Option<Position>>
    var caretColor: Option<Color>
    var prefix: Option<string>
    var message: Option<string>

    /** `DiagnosticBuilder::default`: nothing set. */
    constructor ()
      ensures pos.None? && caretColor.None? && prefix.None? && message.None?
    {
      pos, caretColor, prefix, message := None, None, None, None;
    }

    method SetPos(p: Option<Position>)
      modifies this
      ensures pos == Some(p)
      ensures caretColor == old(caretColor) && prefix == old(prefix) && message == old(message)
    {
      pos := Some(p);
    }

    method SetCaretColor(c: Color)
      modifies this
      ensures caretColor == Some(c)
      ensures pos == old(pos) && prefix == old(prefix) && message == old(message)
    {
      caretColor := Some(c);
    }

    method SetPrefix(p: string)
      modifies this
      ensures prefix == Some(p)
      ensures pos == old(pos) && caretColor == old(caretColor) && message == old(message)
    {
      prefix := Some(p);
    }

    method SetMessage(m: string)
      modifies this
      ensures message == Some(m)
      ensures pos == old(pos) && caretColor == old(caretColor) && prefix == old(prefix)
    {
      message := Some(m);
    }

    /** `build`: each field as set, or as in the default diagnostic. */
    function Build(): (d: Diagnostic)
      reads this
      ensures pos.None? ==> d.pos == DefaultDiagnostic().pos
      ensures caretColor.None? ==> d.caretColor == DefaultDiagnostic().caretColor
      ensures prefix.None? ==> d.prefix == DefaultDiagnostic().prefix
      ensures message.None? ==> d.message == DefaultDiagnostic().message
    {
      Diagnostic(
        if pos.Some? then pos.value else None,
        if caretColor.Some? then caretColor.value else Blue,
        if prefix.Some? then prefix.value else "",
        if message.Some? then message.value else "")
    }
  }

  /** `Position::diag`: a fresh builder with the position and the message
      set. */
  method Diag(p: Position, m: string) returns (b: DiagnosticBuilder)
    ensures fresh(b)
    ensures b.Build() == Diagnostic(Some(p), Blue, "", m)
  {
    b := new DiagnosticBuilder();
    b.SetPos(Some(p));
    b.SetMessage(m);
  }

  /** `diag_info`: a blue caret. */
  method DiagInfo(p: Position, m: string) returns (b: DiagnosticBuilder)
    ensures fresh(b)
    ensures b.Build() == Diagnostic(Some(p), Blue, "", m)
  {
    b := Diag(p, m);
    b.SetCaretColor(Blue);
  }

  /** `diag_err`: a red caret. */
  method DiagErr(p: Position, m: string) returns (b: DiagnosticBuilder)
    ensures fresh(b)
    ensures b.Build() == Diagnostic(Some(p), Red, "", m)
  {
    b := Diag(p, m);
    b.SetCaretColor(Red);
  }

  // Rendering

  /** `Display` of a diagnostic.  With a position: the location and the
      message, the text line, and the prefix, `column` spaces, the caret and
      one '~' fewer than the span's length, unclamped.  Without one: a
      single line saying so, with the message.  None where the source
      panics: a line the line table does not have. */
  function Render(d: Diagnostic): (r: Option<string>)
    ensures d.pos.None? ==> r.Some?
    ensures d.pos.Some? ==> (r.Some? <==> d.pos.value.line < |d.pos.value.span.source.lines|)
  {
    match d.pos
    case None => Some("(no position information): " + d.message + "\n")
    case Some(pos) =>
      var lines := pos.span.source.lines;
      if pos.line >= |lines| then None
      else
        Some(d.prefix + Loc(pos) + " " + d.message + "\n"
          + d.prefix + lines[pos.line] + "\n"
          + CaretLine(d.prefix, pos.column, pos.span.len) + "\n")
  }

  /** `name:line:column:`, both numbers counted from 1. */
  function Loc(pos: Position): string
  {
    pos.span.source.name + ":" + NatToString(pos.line + 1) + ":" + NatToString(pos.column + 1) + ":"
  }

  /** The third line: the prefix, `column` spaces, '^', then one '~' fewer
      than the span's length. */
  function CaretLine(prefix: string, column: nat, len: nat): (r: string)
  {
    prefix + Spaces(column) + "^" + seq(if len == 0 then 0 else len - 1, _ => '~')
  }

  /** The mark is as wide as the span (one place for an empty one),
      whatever the length of the line it stands under: a span running past
      its line is marked past the line's end. */
  lemma MarkWidth(prefix: string, column: nat, len: nat)
    ensures |CaretLine(prefix, column, len)| == |prefix| + column + (if len == 0 then 1 else len)
    ensures CaretLine(prefix, column, len)[|prefix| + column] == '^'
  {
    var r := CaretLine(prefix, column, len);
    assert r == (prefix + Spaces(column)) + (['^'] + seq(if len == 0 then 0 else len - 1, _ => '~'));
  }

  /** Without a position, the prefix and the caret colour are not shown:
      only the message is. */
  lemma NoPositionShowsMessageOnly(a: Diagnostic, b: Diagnostic)
    requires a.pos.None? && b.pos.None? && a.message == b.message
    ensures Render(a) == Render(b)
  {
  }

  // Printing nom's entries

  /** The message of an entry, on the corrected span logging
      (`NewSpan.DebugPreview`).  None where the source then still panics: an
      expected character at the end of the input, where the span has no
      first character to show. */
  function EntryMessage(input: string, e: ErrorEntry): (r: Option<string>)
    ensures r.None? <==> e.1.CharKind? && e.0 >= |input|
  {
    match e.1
    case CharKind(c) =>
      if e.0 < |input| then Some("expected '" + [c] + "', found " + [input[e.0]]) else None
    case ContextKind(ctx) => Some("In " + ctx)
    case NomKind(name) => Some("parsing error: " + name)
  }

  /** As written, `span.chars()` logs the span through `Debug`, which
      panics on a span shorter than 12 bytes: the entry "expected 'x'" at
      offset 0 of "ab" has a message on the corrected logging, yet the
      source panics printing it. */
  lemma EntryLogPanicsAsWritten()
    ensures var src := Source(0, "<memory>", "ab", ["ab"]);
      EntryMessage(src.input, (0, CharKind('x'))).Some?
      && ValidSpan(EntrySpan(src, 0)) && DebugPreviewAsWritten(EntrySpan(src, 0)).None?
  {
  }

  /** The span an entry points at: the rest of the input from its offset. */
  function EntrySpan(src: Source, at: nat): Span
  {
    Span(src, at, if at <= |src.input| then |src.input| - at else 0)
  }

  /** The diagnostic of one entry, placed by `locate`; None where its
      message panics. */
  function EntryDiagnostic(src: Source, locate: nat -> (nat, nat), e: ErrorEntry): (r: Option<Diagnostic>)
    ensures r.Some? ==> r.value.pos.Some? && r.value.pos.value.span == EntrySpan(src, e.0)
    ensures r.Some? ==> (r.value.caretColor == Blue <==> e.1.ContextKind?)
  {
    var m := EntryMessage(src.input, e);
    if m.None? then None
    else
      var lc := locate(e.0);
      var p := Position(EntrySpan(src, e.0), lc.0, lc.1);
      Some(Diagnostic(Some(p), if e.1.ContextKind? then Blue else Red, "", m.value))
  }

  /** The entry's block, or None where the source panics. */
  function Block(src: Source, locate: nat -> (nat, nat), e: ErrorEntry): Option<string>
  {
    match EntryDiagnostic(src, locate, e)
    case None => None
    case Some(d) => Render(d)
  }

  /** The entries' blocks one after the other; None once one panics. */
  function Blocks(src: Source, locate: nat -> (nat, nat), es: seq<ErrorEntry>): Option<string>
  {
    if es == [] then Some("")
    else match Blocks(src, locate, es[..|es| - 1])
      case None => None
      case Some(acc) =>
        match Block(src, locate, es[|es| - 1])
        case None => None
        case Some(t) => Some(acc + t)
  }

  /** What `print_errors` writes: a newline, then the entries' blocks from
      the last entry to the first. */
  function Printed(src: Source, locate: nat -> (nat, nat), errs: seq<ErrorEntry>): Option<string>
  {
    match Blocks(src, locate, Reversed(errs))
    case None => None
    case Some(t) => Some("\n" + t)
  }

  /** One turn of `print_errors`' loop: the entry's message, then a
      builder for its diagnostic, built and written. */
  method WriteEntry(src: Source, locate: nat -> (nat, nat), e: ErrorEntry) returns (t: Option<string>)
    ensures t == Block(src, locate, e)
  {
    var m := EntryMessage(src.input, e);
    if m.None? {
      return None;
    }
    var lc := locate(e.0);
    var p := Position(EntrySpan(src, e.0), lc.0, lc.1);
    var b: DiagnosticBuilder;
    if e.1.ContextKind? {
      b := DiagInfo(p, m.value);
    } else {
      b := DiagErr(p, m.value);
    }
    t := Render(b.Build());
  }

  /** `print_errors`: take the entries in reverse order, write a newline, then
      each entry's diagnostic. */
  method PrintErrors(src: Source, locate: nat -> (nat, nat), errs: seq<ErrorEntry>) returns (out: Option<string>)
    ensures out == Printed(src, locate, errs)
  {
    var rev := Reversed(errs);
    var text := "";
    var i := 0;
    while i < |rev|
      invariant 0 <= i <= |rev|
      invariant Blocks(src, locate, rev[..i]) == Some(text)
    {
      assert rev[..i + 1][..i] == rev[..i];
      var t := WriteEntry(src, locate, rev[i]);
      if t.None? {
        BlocksPanicSticks(src, locate, rev, i + 1);
        return None;
      }
      text := text + t.value;
      i := i + 1;
    }
    assert rev[..i] == rev;
    return Some("\n" + text);
  }

  /** A panic stops the printing: no later entry can undo it. */
  lemma {:induction false} BlocksPanicSticks(src: Source, locate: nat -> (nat, nat), es: seq<ErrorEntry>, n: nat)
    requires n <= |es| && Blocks(src, locate, es[..n]).None?
    ensures Blocks(src, locate, es).None?
    decreases |es| - n
  {
    if n < |es| {
      assert es[..n + 1][..n] == es[..n];
      BlocksPanicSticks(src, locate, es, n + 1);
    } else {
      assert es[..n] == es;
    }
  }

  /** Printing panics on an expected character at the end of the input,
      wherever it stands among the entries: the older printer reports
      '\0' there instead. */
  lemma CharAtEndPanics(src: Source, locate: nat -> (nat, nat), errs: seq<ErrorEntry>, k: nat, c: char)
    requires k < |errs| && errs[k] == (|src.input|, CharKind(c))
    ensures Printed(src, locate, errs).None?
  {
    var rev := Reversed(errs);
    var j := |errs| - 1 - k;
    assert rev[j] == errs[k];
    assert rev[..j + 1][..j] == rev[..j];
    BlocksPanicSticks(src, locate, rev, j + 1);
  }

  /** `Display` of an error: the I/O error's message, the printed entries
      of a source error, or "unknown error". */
  function Display(src: Source, locate: nat -> (nat, nat), e: Error): (r: Option<string>)
    ensures e.Unknown? ==> r == Some("unknown error")
    ensures e.SourceError? && r.Some? ==> |r.value| >= 1 && r.value[0] == '\n'
  {
    match e
    case IO(m) => Some(m)
    case SourceError(s, es) => Printed(s, locate, es)
    case Unknown(_) => Some("unknown error")
  }

  /** The `Debug` text of an unknown error. */
  function UnknownText(source: Source): (r: string)
    ensures |r| > |source.name| && r[|r| - |source.name|..] == source.name
  {
    "An unknown parsing error occured in " + source.name
  }
}
