/** `convert_error` of src/parser.rs: the text shown for a parse error,
    one block per entry of the error's context stack.

    Each entry names a suffix of the input by its offset.  The block gives
    the entry's index, the line the offset falls on, that line's text and a
    caret, then what was expected.  Lines are those of `str::lines`, and
    line numbers are printed from 0.

    Reading the lines, the source subtracts only each line's length from
    the offset and forgets the newline after it, so every line after the
    first is located too far on (`LocateAsWritten`).  The model renders
    with `Locate`, which also counts the newline. */
module LegacyConvert {
  import opened Common
  import opened LegacyParser

  // Locating an offset

  /** The search as written: the first line, from `j` on, whose length is
      at least what is left of the offset; (0, 0) when there is none. */
  function LocateAsWritten(lines: seq<string>, j: nat, offset: nat): (r: (nat, nat))
    requires j <= |lines|
    decreases |lines| - j
  {
    if j == |lines| then (0, 0)
    else if offset <= |lines[j]| then (j, offset)
    else LocateAsWritten(lines, j + 1, offset - |lines[j]|)
  }

  /** The search with each skipped line's newline counted. */
  function LocateFrom(lines: seq<string>, j: nat, offset: nat): (r: (nat, nat))
    requires j <= |lines|
    decreases |lines| - j
  {
    if j == |lines| then (0, 0)
    else if offset <= |lines[j]| then (j, offset)
    else LocateFrom(lines, j + 1, offset - |lines[j]| - 1)
  }

  function Locate(lines: seq<string>, offset: nat): (nat, nat)
  {
    LocateFrom(lines, 0, offset)
  }

  /** Where line `n` starts in the lines joined by newlines. */
  function LineStart(lines: seq<string>, n: nat): (r: nat)
    requires n <= |lines|
  {
    if n == 0 then 0 else LineStart(lines, n - 1) + |lines[n - 1]| + 1
  }

  /** A located offset is the start of its line plus its column, and the
      column lies within that line, for every offset up to the end of the
      joined text. */
  lemma {:induction false} LocateFromSpec(lines: seq<string>, j: nat, offset: nat)
    requires j < |lines| && LineStart(lines, j) + offset <= |Join(lines, "\n")|
    ensures LocateFrom(lines, j, offset).0 < |lines|
    ensures LocateFrom(lines, j, offset).1 <= |lines[LocateFrom(lines, j, offset).0]|
    ensures LineStart(lines, LocateFrom(lines, j, offset).0) + LocateFrom(lines, j, offset).1 == LineStart(lines, j) + offset
    decreases |lines| - j
  {
    if offset > |lines[j]| {
      if j + 1 == |lines| {
        JoinLength(lines);
        assert false;
      }
      LocateFromSpec(lines, j + 1, offset - |lines[j]| - 1);
    }
  }

  /** The joined text is as long as the lines and their separators. */
  lemma {:induction false} JoinLength(lines: seq<string>)
    requires lines != []
    ensures |Join(lines, "\n")| == LineStart(lines, |lines| - 1) + |lines[|lines| - 1]|
  {
    if |lines| > 1 {
      var init := lines[..|lines| - 1];
      JoinLength(init);
      JoinSnoc(init, lines[|lines| - 1]);
      assert init + [lines[|lines| - 1]] == lines;
      LineStartPrefix(init, lines, |lines| - 1);
    }
  }

  /** Line starts depend only on the lines before. */
  lemma {:induction false} LineStartPrefix(a: seq<string>, b: seq<string>, n: nat)
    requires n <= |a| && n <= |b| && a[..n] == b[..n]
    ensures LineStart(a, n) == LineStart(b, n)
  {
    if n > 0 {
      assert a[..n - 1] == a[..n][..n - 1] && b[..n - 1] == b[..n][..n - 1];
      assert a[n - 1] == a[..n][n - 1] && b[n - 1] == b[..n][n - 1];
      LineStartPrefix(a, b, n - 1);
    }
  }

  lemma JoinSnoc(init: seq<string>, x: string)
    requires init != []
    ensures Join(init + [x], "\n") == Join(init, "\n") + "\n" + x
  {
    JoinAppend(init, x, "\n");
  }

  /** The lines of a text without carriage returns: an offset inside the
      text is located at a line and a column whose character is the one at
      the offset. */
  lemma LocateFinds(input: string, offset: nat)
    requires '\r' !in input && offset < |ChompNewline(input)|
    ensures var lines := Lines(input); var lc := Locate(lines, offset);
      lc.0 < |lines| && lc.1 <= |lines[lc.0]|
      && (lc.1 < |lines[lc.0]| ==> lines[lc.0][lc.1] == input[offset])
  {
    var lines := Lines(input);
    LinesJoin(input);
    assert input != "";
    assert lines != [];
    LocateFromSpec(lines, 0, offset);
    var lc := Locate(lines, offset);
    if lc.1 < |lines[lc.0]| {
      JoinAt(lines, lc.0, lc.1);
      assert ChompNewline(input)[offset] == input[offset];
    }
  }

  /** The character at a line and a column, in the joined text. */
  lemma {:induction false} JoinAt(lines: seq<string>, n: nat, c: nat)
    requires n < |lines| && c < |lines[n]|
    ensures LineStart(lines, n) + c < |Join(lines, "\n")|
    ensures Join(lines, "\n")[LineStart(lines, n) + c] == lines[n][c]
  {
    var last := |lines| - 1;
    if n == last {
      JoinLength(lines);
      if last > 0 {
        var init := lines[..last];
        JoinSnoc(init, lines[last]);
        assert init + [lines[last]] == lines;
        JoinLength(init);
        LineStartPrefix(init, lines, last);
      } else {
        assert Join(lines, "\n") == lines[0];
      }
    } else {
      var init := lines[..last];
      assert init + [lines[last]] == lines;
      assert init[n] == lines[n];
      JoinAt(init, n, c);
      assert init[..n] == lines[..n];
      LineStartPrefix(init, lines, n);
      JoinSnoc(init, lines[last]);
    }
  }

  /** Both searches agree on the first line. */
  lemma FirstLineAgrees(lines: seq<string>, offset: nat)
    requires lines != [] && offset <= |lines[0]|
    ensures LocateAsWritten(lines, 0, offset) == Locate(lines, offset) == (0, offset)
  {
  }

  /** In "ab\ncd\nef" the 'f' at offset 7 is on line 2, column 1; the
      search as written runs past the last line and reports line 0,
      column 0. */
  lemma LocateAsWrittenMisses()
    ensures Lines("ab\ncd\nef") == ["ab", "cd", "ef"]
    ensures "ab\ncd\nef"[7] == 'f'
    ensures LocateAsWritten(["ab", "cd", "ef"], 0, 7) == (0, 0)
    ensures Locate(["ab", "cd", "ef"], 7) == (2, 1)
  {
    SampleLines();
  }

  lemma SampleLines()
    ensures Lines("ab\ncd\nef") == ["ab", "cd", "ef"]
  {
    TailSampleLines();
    assert "ab" + "\n" + "cd\nef" == "ab\ncd\nef";
    LineThen("ab", "cd\nef");
  }

  lemma TailSampleLines()
    ensures Lines("cd\nef") == ["cd", "ef"]
  {
    assert Lines("ef") == ["ef"] by {
      assert IndexOf("ef", '\n') == None;
    }
    assert "cd" + "\n" + "ef" == "cd\nef";
    LineThen("cd", "ef");
  }

  /** A line without '\n' or '\r' followed by a newline and more text. */
  lemma LineThen(x: string, rest: string)
    requires '\n' !in x && '\r' !in x && rest != ""
    ensures Lines(x + "\n" + rest) == [x] + Lines(rest)
  {
    var s := x + "\n" + rest;
    IndexOfAfterHead(x, '\n', rest);
    assert s[..|x|] == x && s[|x| + 1..] == rest;
    assert StripCr(x) == x;
  }

  // Rendering

  /** The caret line: `column - 1` spaces, none for column 0, then '^'. */
  function Caret(column: nat): (r: string)
  {
    Spaces(if column > 0 then column - 1 else 0) + "^\n"
  }

  /** The caret stands one place left of the column, or at the line start
      for column 0. */
  lemma CaretAt(column: nat)
    ensures var k := if column > 0 then column - 1 else 0;
      |Caret(column)| == k + 2 && Caret(column)[k] == '^'
      && forall i :: 0 <= i < k ==> Caret(column)[i] == ' '
  {
    var k := if column > 0 then column - 1 else 0;
    assert Caret(column)[k] == "^\n"[0];
  }

  /** The block of entry `i`, given where its offset was located; None where
      the source panics: indexing an empty line table, or reading the first
      character of an empty remaining input. */
  function EntryText(input: string, lines: seq<string>, i: nat, offset: nat, line: nat, column: nat, kind: ErrorKind): (r: Option<string>)
    requires offset <= |input|
  {
    match kind
    case CharKind(c) =>
      if line >= |lines| || offset == |input| then None
      else Some(NatToString(i) + ": at line " + NatToString(line) + ":\n" + lines[line] + "\n" + Caret(column)
        + "expected '" + [c] + "', found " + [input[offset]] + "\n\n")
    case ContextKind(ctx) =>
      if line >= |lines| then None
      else Some(NatToString(i) + ": at line " + NatToString(line) + ", in " + ctx + ":\n" + lines[line] + "\n" + Caret(column) + "\n")
    case NomKind(name) => Some("nom error " + name + "\n\n")
  }

  function Entry(input: string, lines: seq<string>, i: nat, e: ErrorEntry): Option<string>
    requires e.0 <= |input|
  {
    var lc := Locate(lines, e.0);
    EntryText(input, lines, i, e.0, lc.0, lc.1, e.1)
  }

  predicate Within(input: string, errors: seq<ErrorEntry>)
  {
    forall k :: 0 <= k < |errors| ==> errors[k].0 <= |input|
  }

  /** The blocks of the first `n` entries, concatenated; None once one of
      them panics. */
  function Blocks(input: string, lines: seq<string>, errors: seq<ErrorEntry>, n: nat): (r: Option<string>)
    requires Within(input, errors) && n <= |errors|
  {
    if n == 0 then Some("")
    else match Blocks(input, lines, errors, n - 1)
      case None => None
      case Some(acc) =>
        match Entry(input, lines, n - 1, errors[n - 1])
        case None => None
        case Some(t) => Some(acc + t)
  }

  function Convert(input: string, errors: seq<ErrorEntry>): Option<string>
    requires Within(input, errors)
  {
    Blocks(input, Lines(input), errors, |errors|)
  }

  /** `convert_error`: the outer loop renders each entry in turn; the inner
      loop walks the lines, taking what is left of the offset down past
      each line that is too short, and stops at the first line long
      enough. */
  method ConvertError(input: string, errors: seq<ErrorEntry>) returns (r: Option<string>)
    requires Within(input, errors)
    ensures r == Convert(input, errors)
  {
    var lines := Lines(input);
    var result := "";
    var i := 0;
    while i < |errors|
      invariant 0 <= i <= |errors|
      invariant Blocks(input, lines, errors, i) == Some(result)
    {
      var offset: nat := errors[i].0;
      var line := 0;
      var column := 0;
      var j := 0;
      while j < |lines|
        invariant 0 <= j <= |lines|
        invariant line == 0 && column == 0
        invariant LocateFrom(lines, j, offset) == Locate(lines, errors[i].0)
      {
        if offset <= |lines[j]| {
          line := j;
          column := offset;
          break;
        }
        offset := offset - |lines[j]| - 1;
        j := j + 1;
      }
      var t := EntryText(input, lines, i, errors[i].0, line, column, errors[i].1);
      if t.None? {
        PanicSticks(input, lines, errors, i + 1, |errors|);
        return None;
      }
      result := result + t.value;
      i := i + 1;
    }
    return Some(result);
  }

  /** A nom error's block shows no source line: it is the same whatever
      the input and wherever the entry points. */
  lemma NomBlockIgnoresSource(a: string, la: seq<string>, oa: nat, b: string, lb: seq<string>, ob: nat, i: nat, name: string)
    requires oa <= |a| && ob <= |b|
    ensures Entry(a, la, i, (oa, NomKind(name))) == Entry(b, lb, i, (ob, NomKind(name))) == Some("nom error " + name + "\n\n")
  {
  }

  /** An expected-character entry at the very end of the input has no
      first character to report: the source panics. */
  lemma CharAtEndPanics(input: string, lines: seq<string>, i: nat, c: char)
    ensures Entry(input, lines, i, (|input|, CharKind(c))) == None
  {
  }

  /** With an empty input there are no lines, and a Char or Context entry
      indexes the empty line table: the source panics. */
  lemma EmptyInputPanics(i: nat, e: ErrorEntry)
    requires e.0 == 0 && !e.1.NomKind?
    ensures Entry("", Lines(""), i, e) == None
  {
  }

  /** A panic stops the rendering: no later entry can undo it. */
  lemma {:induction false} PanicSticks(input: string, lines: seq<string>, errors: seq<ErrorEntry>, n: nat, m: nat)
    requires Within(input, errors) && n <= m <= |errors| && Blocks(input, lines, errors, n).None?
    ensures Blocks(input, lines, errors, m).None?
    decreases m - n
  {
    if n < m {
      PanicSticks(input, lines, errors, n + 1, m);
    }
  }
}
