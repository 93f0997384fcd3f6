/** The indenting text writer of the older code generator
    (lavish/src/codegen/rust/output.rs).

    A `Scope` forwards text to a shared sink, writing `indent` spaces before
    the first non-empty piece of every line.  Child scopes share the sink and
    indent four more columns.  The closures the Rust code passes to
    `in_block`, `in_scope` and `def_struct` are modelled as command lists
    (`Cmd`): text to write, or a nested block run in a child scope. */
module LavishOutput {
  import opened Common

  const IndentWidth: nat := 4

  datatype ScopeState = NeedIndent | Indented

  /** The state after one character: a newline asks for indentation. */
  function After(c: char): ScopeState
  {
    if c == '\n' then NeedIndent else Indented
  }

  /** The state after writing `s` from state `st`. */
  function End(st: ScopeState, s: string): ScopeState
  {
    if s == "" then st else After(s[|s| - 1])
  }

  /** What one character turns into on the sink. */
  function Emit(indent: nat, st: ScopeState, c: char): string
  {
    if c == '\n' then "\n"
    else if st == NeedIndent then Spaces(indent) + [c]
    else [c]
  }

  /** Reference semantics of the writer: the text it emits for `s`,
      character by character. */
  function Out(indent: nat, st: ScopeState, s: string): string
    decreases |s|
  {
    if s == "" then "" else Emit(indent, st, s[0]) + Out(indent, After(s[0]), s[1..])
  }

  /** Writing `a` then `b` is writing `a + b`: the writer is insensitive to
      how `write!` splits its arguments into `write_str` calls. */
  lemma {:induction false} OutAppend(indent: nat, st: ScopeState, a: string, b: string)
    ensures Out(indent, st, a + b) == Out(indent, st, a) + Out(indent, End(st, a), b)
    ensures End(st, a + b) == End(End(st, a), b)
    decreases |a|
  {
    if a != "" {
      var h, t := Emit(indent, st, a[0]), a[1..];
      assert (a + b)[1..] == t + b;
      assert (a + b)[0] == a[0];
      assert Out(indent, st, a + b) == h + Out(indent, After(a[0]), t + b);
      OutAppend(indent, After(a[0]), t, b);
      assert End(After(a[0]), t) == End(st, a) by {
        if t != "" {
          assert t[|t| - 1] == a[|a| - 1];
        }
      }
      AppendAssoc(h, Out(indent, After(a[0]), t), Out(indent, End(st, a), b));
      assert End(st, a + b) == End(End(st, a), b) by {
        if b != "" {
          assert (a + b)[|a + b| - 1] == b[|b| - 1];
        } else {
          assert a + b == a;
        }
      }
    } else {
      assert a + b == b;
    }
  }

  /** A piece without newlines is written as is, after the indentation if
      the line has none yet; an empty piece changes nothing. */
  lemma OutToken(indent: nat, st: ScopeState, t: string)
    requires '\n' !in t
    ensures Out(indent, st, t) == if t == "" then "" else (if st == NeedIndent then Spaces(indent) else "") + t
    ensures End(st, t) == if t == "" then st else Indented
  {
    if t != "" {
      var c, u := t[0], t[1..];
      var pre := if st == NeedIndent then Spaces(indent) else "";
      NoNewlineTail(t);
      OutMidLine(indent, u);
      assert Emit(indent, st, c) == pre + [c];
      assert t == [c] + u;
      AppendAssoc(pre, [c], u);
      assert t[|t| - 1] in t;
    }
  }

  /** Mid-line, text without newlines is written as it is. */
  lemma {:induction false} OutMidLine(indent: nat, t: string)
    requires '\n' !in t
    ensures Out(indent, Indented, t) == t
    decreases |t|
  {
    if t != "" {
      NoNewlineTail(t);
      OutMidLine(indent, t[1..]);
      assert t == [t[0]] + t[1..];
    }
  }

  lemma NoNewlineTail(t: string)
    requires t != "" && '\n' !in t
    ensures '\n' !in t[1..] && t[0] != '\n'
  {
    assert forall k :: 0 <= k < |t| - 1 ==> t[1..][k] == t[k + 1];
  }

  function IndentLine(indent: nat, l: string): string
  {
    if l == "" then "" else Spaces(indent) + l
  }

  function IndentLines(indent: nat, ls: seq<string>): (r: seq<string>)
    ensures |r| == |ls| && forall k :: 0 <= k < |ls| ==> r[k] == IndentLine(indent, ls[k])
  {
    if ls == [] then [] else [IndentLine(indent, ls[0])] + IndentLines(indent, ls[1..])
  }

  /** A newline always starts a fresh line. */
  lemma OutNewline(indent: nat, st: ScopeState, t: string)
    ensures Out(indent, st, "\n" + t) == "\n" + Out(indent, NeedIndent, t)
    ensures End(st, "\n" + t) == End(NeedIndent, t)
  {
    assert ("\n" + t)[0] == '\n';
    assert ("\n" + t)[1..] == t;
  }

  /** One line and a newline, from the start of a line. */
  lemma OutLineThenRest(indent: nat, line: string, rest: string)
    requires '\n' !in line
    ensures Out(indent, NeedIndent, line + "\n" + rest) == IndentLine(indent, line) + "\n" + Out(indent, NeedIndent, rest)
  {
    assert line + "\n" + rest == line + ("\n" + rest);
    OutAppend(indent, NeedIndent, line, "\n" + rest);
    OutNewline(indent, End(NeedIndent, line), rest);
    OutToken(indent, NeedIndent, line);
  }

  lemma JoinIndentedCons(indent: nat, line: string, pieces: seq<string>)
    requires pieces != []
    ensures Join(IndentLines(indent, [line] + pieces), "\n") == IndentLine(indent, line) + "\n" + Join(IndentLines(indent, pieces), "\n")
  {
    var all := IndentLines(indent, [line] + pieces);
    assert all[1..] == IndentLines(indent, pieces);
  }

  /** From the start of a line, the writer's output is the input with every
      non-empty line prefixed by the indentation; blank lines stay empty. */
  lemma {:induction false} OutIndentsLines(indent: nat, s: string)
    ensures Out(indent, NeedIndent, s) == Join(IndentLines(indent, Split(s, '\n')), "\n")
    decreases |s|
  {
    match IndexOf(s, '\n')
    case None =>
      OutToken(indent, NeedIndent, s);
    case Some(k) =>
      var line, rest := s[..k], s[k + 1..];
      assert s == line + "\n" + rest;
      OutLineThenRest(indent, line, rest);
      OutIndentsLines(indent, rest);
      assert Split(s, '\n') == [line] + Split(rest, '\n');
      JoinIndentedCons(indent, line, Split(rest, '\n'));
  }

  /** The `fmt::Write` that every scope of one output writes to. */
  class Sink {
    var text: string

    constructor ()
      ensures text == ""
    {
      text := "";
    }
  }

  /** What a closure given to the writer does: write text into the current
      scope, or run a nested command list in a child scope (`scope()`). */
  datatype Cmd = Text(s: string) | Nested(body: seq<Cmd>)

  /** The state a scope is left in by a command list: nested lists write
      through a child and never change their parent's state. */
  function RenderEnd(st: ScopeState, cmds: seq<Cmd>): ScopeState
  {
    if cmds == [] then st
    else if cmds[|cmds| - 1].Text? then End(RenderEnd(st, cmds[..|cmds| - 1]), cmds[|cmds| - 1].s)
    else RenderEnd(st, cmds[..|cmds| - 1])
  }

  /** Reference semantics of a command list: the text it emits. */
  function RenderOut(indent: nat, st: ScopeState, cmds: seq<Cmd>): string
    decreases cmds
  {
    if cmds == [] then ""
    else if cmds[|cmds| - 1].Text? then
      RenderOut(indent, st, cmds[..|cmds| - 1]) + Out(indent, RenderEnd(st, cmds[..|cmds| - 1]), cmds[|cmds| - 1].s)
    else
      RenderOut(indent, st, cmds[..|cmds| - 1]) + RenderOut(indent + IndentWidth, NeedIndent, cmds[|cmds| - 1].body)
  }

  /** Rendering one list after another continues from the first's state. */
  lemma {:induction false} RenderAppend(indent: nat, st: ScopeState, a: seq<Cmd>, b: seq<Cmd>)
    ensures RenderOut(indent, st, a + b) == RenderOut(indent, st, a) + RenderOut(indent, RenderEnd(st, a), b)
    ensures RenderEnd(st, a + b) == RenderEnd(RenderEnd(st, a), b)
    decreases |b|
  {
    if b == [] {
      assert a + b == a;
    } else {
      var init, last := b[..|b| - 1], b[|b| - 1];
      assert (a + b)[..|a + b| - 1] == a + init;
      assert (a + b)[|a + b| - 1] == last;
      RenderAppend(indent, st, a, init);
      var x, y := RenderOut(indent, st, a), RenderOut(indent, RenderEnd(st, a), init);
      var e := RenderEnd(st, a + init);
      var z := if last.Text? then Out(indent, e, last.s) else RenderOut(indent + IndentWidth, NeedIndent, last.body);
      assert RenderOut(indent, st, a + b) == RenderOut(indent, st, a + init) + z;
      assert RenderOut(indent, RenderEnd(st, a), b) == y + z;
      AppendAssoc(x, y, z);
    }
  }

  /** `line(d)`: `d`, then a newline. */
  function LineCmds(d: string): seq<Cmd>
  {
    [Text(d), Text("\n")]
  }

  /** `in_block(f)`: " {" on the current line, `f` one level deeper, "}". */
  function BlockCmds(body: seq<Cmd>): seq<Cmd>
  {
    LineCmds(" {") + [Nested(body)] + LineCmds("}")
  }

  /** `def_struct(name, f)`. */
  function StructCmds(name: string, body: seq<Cmd>): seq<Cmd>
  {
    LineCmds("#[derive(Serialize, Deserialize, Debug)]") + LineCmds("pub struct " + name + " {") + [Nested(body)] + LineCmds("}")
  }

  /** `comment(c)`: one "/// " line per comment line. */
  function CommentCmds(lines: seq<string>): seq<Cmd>
  {
    if lines == [] then [] else CommentCmds(lines[..|lines| - 1]) + LineCmds("/// " + lines[|lines| - 1])
  }

  /** A line leaves the scope at the start of the next line, whatever it
      was in before, having written `d` and the newline. */
  lemma LineEnds(indent: nat, st: ScopeState, d: string)
    ensures RenderEnd(st, LineCmds(d)) == NeedIndent
    ensures RenderOut(indent, st, LineCmds(d)) == Out(indent, st, d + "\n")
  {
    assert LineCmds(d)[..1] == [Text(d)];
    assert [Text(d)][..0] == [];
    OutAppend(indent, st, d, "\n");
  }

  /** A block's body starts on a fresh line one level deeper, and the block
      closes with "}" at the scope's own indentation, ending the line. */
  lemma {:induction false} BlockLayout(indent: nat, st: ScopeState, body: seq<Cmd>)
    ensures RenderOut(indent, st, BlockCmds(body))
      == Out(indent, st, " {\n") + RenderOut(indent + IndentWidth, NeedIndent, body) + Spaces(indent) + "}\n"
    ensures RenderEnd(st, BlockCmds(body)) == NeedIndent
  {
    RenderAppend(indent, st, LineCmds(" {") + [Nested(body)], LineCmds("}"));
    RenderAppend(indent, st, LineCmds(" {"), [Nested(body)]);
    LineEnds(indent, st, " {");
    LineEnds(indent, NeedIndent, "}");
    assert [Nested(body)][..0] == [];
    assert RenderEnd(NeedIndent, [Nested(body)]) == NeedIndent;
    OutAppend(indent, NeedIndent, "}", "\n");
    OutToken(indent, NeedIndent, "}");
    assert Out(indent, Indented, "\n") == "\n";
  }

  /** The state after the pieces of a split text went through the loop of
      `write_str`. */
  function PiecesEnd(st: ScopeState, pieces: seq<string>): ScopeState
  {
    if pieces == [] then st
    else
      var before := if |pieces| > 1 then NeedIndent else st;
      if pieces[|pieces| - 1] == "" then before else Indented
  }

  /** The text the loop of `write_str` writes for the pieces of a split
      text: a newline between pieces, the indentation before a non-empty
      piece that starts a line. */
  function PiecesOut(indent: nat, st: ScopeState, pieces: seq<string>): string
  {
    if pieces == [] then ""
    else
      var init := pieces[..|pieces| - 1];
      var last := pieces[|pieces| - 1];
      var before := if |pieces| > 1 then NeedIndent else st;
      PiecesOut(indent, st, init) + (if |pieces| > 1 then "\n" else "")
        + (if last == "" then "" else (if before == NeedIndent then Spaces(indent) else "") + last)
  }

  /** What round `i` of the loop of `write_str` writes for piece `t`, in
      state `st`: the newline ending the previous piece, then the
      indentation when the piece is not empty and starts a line. */
  function RoundText(indent: nat, st: ScopeState, i: nat, t: string): string
  {
    var nl := if i > 0 then "\n" else "";
    var before := if i > 0 then NeedIndent else st;
    if t == "" then nl
    else if before == NeedIndent then nl + Spaces(indent) + t
    else nl + t
  }

  /** One more piece: its round's text and the state after it. */
  lemma PiecesStep(indent: nat, st: ScopeState, pieces: seq<string>, i: nat)
    requires i < |pieces|
    ensures PiecesOut(indent, st, pieces[..i + 1])
      == PiecesOut(indent, st, pieces[..i]) + RoundText(indent, PiecesEnd(st, pieces[..i]), i, pieces[i])
    ensures var before := if i > 0 then NeedIndent else st;
      PiecesEnd(st, pieces[..i + 1]) == if pieces[i] == "" then before else Indented
  {
    var p := pieces[..i + 1];
    assert p[..i] == pieces[..i] && p[i] == pieces[i];
    var a, t := if i > 0 then "\n" else "", pieces[i];
    var before := if i > 0 then NeedIndent else PiecesEnd(st, pieces[..i]);
    var b := if t == "" then "" else (if before == NeedIndent then Spaces(indent) else "") + t;
    var o := PiecesOut(indent, st, pieces[..i]);
    assert PiecesOut(indent, st, p) == o + a + b;
    if t == "" {
      assert RoundText(indent, PiecesEnd(st, pieces[..i]), i, t) == a + b;
    } else if before == NeedIndent {
      AppendAssoc(a, Spaces(indent), t);
    } else {
      assert RoundText(indent, PiecesEnd(st, pieces[..i]), i, t) == a + b;
    }
    AppendAssoc(o, a, b);
  }

  /** Writing the pieces one by one is writing the text they were split
      from. */
  lemma {:induction false} PiecesAgree(indent: nat, st: ScopeState, pieces: seq<string>)
    requires forall k :: 0 <= k < |pieces| ==> '\n' !in pieces[k]
    ensures PiecesOut(indent, st, pieces) == Out(indent, st, Join(pieces, "\n"))
    ensures PiecesEnd(st, pieces) == End(st, Join(pieces, "\n"))
  {
    if |pieces| == 1 {
      OutToken(indent, st, pieces[0]);
    } else if |pieces| > 1 {
      var init := pieces[..|pieces| - 1];
      var last := pieces[|pieces| - 1];
      PiecesAgree(indent, st, init);
      assert init + [last] == pieces;
      JoinAppend(init, last, "\n");
      NewlineThenPiece(indent, st, Join(init, "\n"), last);
    }
  }

  /** A newline and then a piece without newlines, after any text. */
  lemma NewlineThenPiece(indent: nat, st: ScopeState, before: string, t: string)
    requires '\n' !in t
    ensures Out(indent, st, before + "\n" + t) == Out(indent, st, before) + "\n" + (if t == "" then "" else Spaces(indent) + t)
    ensures End(st, before + "\n" + t) == if t == "" then NeedIndent else Indented
  {
    OutThen(indent, st, before, "\n", t);
    OutToken(indent, NeedIndent, t);
  }

  class Scope {
    const sink: Sink
    const indent: nat
    var state: ScopeState

    /** `Scope::new`: column 0, at the start of a line. */
    constructor (sink: Sink)
      ensures this.sink == sink && indent == 0 && state == NeedIndent
    {
      this.sink := sink;
      indent := 0;
      state := NeedIndent;
    }

    /** The struct literal `scope()` builds. */
    constructor WithIndent(sink: Sink, indent: nat)
      ensures this.sink == sink && this.indent == indent && state == NeedIndent
    {
      this.sink := sink;
      this.indent := indent;
      state := NeedIndent;
    }

    /** `scope()`: a child on the same sink, one level deeper. */
    method Child() returns (child: Scope)
      ensures fresh(child)
      ensures child.sink == sink && child.indent == indent + IndentWidth && child.state == NeedIndent
    {
      child := new Scope.WithIndent(sink, indent + IndentWidth);
    }

    /** `fmt::Write::write_str`: the text split on '\n'; each newline is
        forwarded and resets the state, and the indentation goes before the
        first non-empty piece of a line. */
    method WriteStr(s: string)
      modifies this, sink
      ensures sink.text == old(sink.text) + Out(indent, old(state), s)
      ensures state == End(old(state), s)
    {
      var tokens := Split(s, '\n');
      ghost var st0 := state;
      ghost var out0 := sink.text;
      for i := 0 to |tokens|
        invariant sink.text == out0 + PiecesOut(indent, st0, tokens[..i])
        invariant state == PiecesEnd(st0, tokens[..i])
      {
        PiecesStep(indent, st0, tokens, i);
        var token := tokens[i];
        // The writes of this round, in order: the newline ending the
        // previous piece, the indentation, the piece.
        var chunk, st := "", state;
        if i > 0 {
          chunk, st := "\n", NeedIndent;
        }
        if token != "" {
          if st == NeedIndent {
            chunk, st := chunk + Spaces(indent), Indented;
          }
          chunk := chunk + token;
        }
        assert chunk == RoundText(indent, state, i, token);
        AppendAssoc(out0, PiecesOut(indent, st0, tokens[..i]), chunk);
        sink.text, state := sink.text + chunk, st;
      }
      assert tokens[..|tokens|] == tokens;
      SplitJoin(s, '\n');
      PiecesAgree(indent, st0, tokens);
    }

    /** `lf()` */
    method Lf()
      modifies this, sink
      ensures sink.text == old(sink.text) + "\n" && state == NeedIndent
    {
      WriteStr("\n");
    }

    /** `line(d)`: `d` (by its `Display` text) and a newline.  Afterwards the
        scope is always at the start of a line. */
    method Line(d: string)
      modifies this, sink
      ensures sink.text == old(sink.text) + RenderOut(indent, old(state), LineCmds(d))
      ensures state == RenderEnd(old(state), LineCmds(d)) == NeedIndent
    {
      WriteStr(d);
      WriteStr("\n");
      LineEnds(indent, old(state), d);
      OutAppend(indent, old(state), d, "\n");
    }

    /** Runs a closure's commands, giving each nested list its own child
        scope. */
    method Exec(cmds: seq<Cmd>)
      modifies this, sink
      ensures sink.text == old(sink.text) + RenderOut(indent, old(state), cmds)
      ensures state == RenderEnd(old(state), cmds)
      decreases cmds
    {
      ghost var st0 := state;
      ghost var out0 := sink.text;
      for i := 0 to |cmds|
        invariant sink.text == out0 + RenderOut(indent, st0, cmds[..i])
        invariant state == RenderEnd(st0, cmds[..i])
      {
        assert cmds[..i + 1][..i] == cmds[..i];
        ghost var done := RenderOut(indent, st0, cmds[..i]);
        match cmds[i]
        case Text(s) =>
          AppendAssoc(out0, done, Out(indent, state, s));
          WriteStr(s);
        case Nested(body) =>
          AppendAssoc(out0, done, RenderOut(indent + IndentWidth, NeedIndent, body));
          var child := Child();
          child.Exec(body);
      }
      assert cmds[..|cmds|] == cmds;
    }

    /** `in_scope(f)`: `f` run in a child scope. */
    method InScope(body: seq<Cmd>)
      modifies this, sink
      ensures sink.text == old(sink.text) + RenderOut(indent + IndentWidth, NeedIndent, body)
      ensures state == old(state)
    {
      var child := Child();
      child.Exec(body);
    }

    /** `in_block(f)` */
    method InBlock(body: seq<Cmd>)
      modifies this, sink
      ensures sink.text == old(sink.text) + Out(indent, old(state), " {\n") + RenderOut(indent + IndentWidth, NeedIndent, body) + Spaces(indent) + "}\n"
      ensures state == NeedIndent
    {
      Exec(BlockCmds(body));
      BlockLayout(indent, old(state), body);
    }

    /** `def_struct(name, f)` */
    method DefStruct(name: string, body: seq<Cmd>)
      modifies this, sink
      ensures sink.text == old(sink.text) + RenderOut(indent, old(state), StructCmds(name, body))
      ensures state == RenderEnd(old(state), StructCmds(name, body))
    {
      Exec(StructCmds(name, body));
    }

    /** `comment(c)` */
    method Comment(comment: Option<seq<string>>)
      modifies this, sink
      ensures comment.None? ==> sink.text == old(sink.text) && state == old(state)
      ensures comment.Some? ==> sink.text == old(sink.text) + RenderOut(indent, old(state), CommentCmds(comment.value))
      ensures comment.Some? ==> state == RenderEnd(old(state), CommentCmds(comment.value))
    {
      if comment.Some? {
        Exec(CommentCmds(comment.value));
      }
    }

    /** `in_brackets(b, f)`: the brackets around `f`, in this same scope. */
    method InBrackets(brackets: Brackets, body: seq<Cmd>)
      modifies this, sink
      ensures sink.text == old(sink.text) + RenderOut(indent, old(state), [Text([Open(brackets)])] + body + [Text([Close(brackets)])])
      ensures state == RenderEnd(old(state), [Text([Open(brackets)])] + body + [Text([Close(brackets)])])
    {
      Exec([Text([Open(brackets)])] + body + [Text([Close(brackets)])]);
    }

    /** `in_list(b, f)` for a closure that calls `omit_empty` when `omit`
        holds and then `item` once per element of `items`; the list is
        closed when it is dropped. */
    method InList(brackets: Brackets, omit: bool, items: seq<string>)
      modifies this, sink
      ensures sink.text == old(sink.text) + Out(indent, old(state), ListText(brackets, omit, items))
      ensures state == End(old(state), ListText(brackets, omit, items))
    {
      var list := new CommaList(this, brackets);
      if omit {
        list.OmitEmpty();
      }
      for i := 0 to |items|
        invariant list.Valid() && list.scope == this && list.brackets == brackets && list.omitEmpty == omit
        invariant list.start == old(sink.text) && list.st0 == old(state)
        invariant list.items == items[..i]
        invariant fresh(list)
      {
        assert items[..i + 1] == items[..i] + [items[i]];
        list.Item(items[i]);
      }
      assert items[..|items|] == items;
      list.Drop();
    }
  }

  datatype Brackets = Round | Squares | Curly | Angle

  /** `Brackets::pair` */
  function Pair(b: Brackets): (r: (char, char))
    ensures r.0 != r.1
  {
    match b
    case Round => ('(', ')')
    case Squares => ('[', ']')
    case Curly => ('{', '}')
    case Angle => ('<', '>')
  }

  function Open(b: Brackets): char
  {
    Pair(b).0
  }

  function Close(b: Brackets): char
  {
    Pair(b).1
  }

  /** The four bracket kinds use eight distinct characters, so a bracket
      character identifies its kind and side. */
  lemma BracketsDistinct(a: Brackets, b: Brackets)
    ensures Open(a) != Close(b)
    ensures Open(a) == Open(b) <==> a == b
    ensures Close(a) == Close(b) <==> a == b
  {
  }

  /** The complete text of a comma list once dropped. */
  function ListText(brackets: Brackets, omit: bool, items: seq<string>): (r: string)
  {
    if items == [] then (if omit then "" else [Open(brackets), Close(brackets)])
    else [Open(brackets)] + Join(items, ", ") + [Close(brackets)]
  }

  /** A non-empty list is its items joined by ", " between the brackets; an
      empty one prints nothing exactly when asked to. */
  lemma ListTextShape(brackets: Brackets, omit: bool, items: seq<string>)
    ensures var r := ListText(brackets, omit, items);
      && (items != [] ==> |r| >= 2 && r[0] == Open(brackets) && r[|r| - 1] == Close(brackets) && r[1..|r| - 1] == Join(items, ", "))
      && (items == [] ==> (r == "" <==> omit))
  {
  }

  /** The text of a comma list before it is closed. */
  function Opened(brackets: Brackets, items: seq<string>): string
  {
    if items == [] then "" else [Open(brackets)] + Join(items, ", ")
  }

  /** Each item adds the opening bracket (first item) or ", " (later ones)
      and its own text. */
  lemma OpenedAppend(brackets: Brackets, items: seq<string>, d: string)
    ensures Opened(brackets, items + [d]) == Opened(brackets, items) + (if items == [] then [Open(brackets)] else ", ") + d
  {
    JoinAppend(items, d, ", ");
  }

  lemma OutThen(indent: nat, st: ScopeState, a: string, b: string, c: string)
    ensures Out(indent, st, a + b + c) == Out(indent, st, a) + Out(indent, End(st, a), b) + Out(indent, End(End(st, a), b), c)
    ensures End(st, a + b + c) == End(End(End(st, a), b), c)
  {
    OutAppend(indent, st, a, b);
    OutAppend(indent, st, a + b, c);
  }

  /** One write after some text `w0` written from `st0`. */
  lemma OneWrite(indent: nat, st0: ScopeState, start: string, w0: string, a: string,
                 t0: string, s0: ScopeState, t1: string, s1: ScopeState)
    requires t0 == start + Out(indent, st0, w0) && s0 == End(st0, w0)
    requires t1 == t0 + Out(indent, s0, a) && s1 == End(s0, a)
    ensures t1 == start + Out(indent, st0, w0 + a) && s1 == End(st0, w0 + a)
  {
    OutAppend(indent, st0, w0, a);
    AppendAssoc(start, Out(indent, st0, w0), Out(indent, s0, a));
  }

  /** Two successive writes after some text `w0` written from `st0`. */
  lemma TwoWrites(indent: nat, st0: ScopeState, start: string, w0: string, a: string, b: string,
                  t0: string, s0: ScopeState, t1: string, s1: ScopeState, t2: string, s2: ScopeState)
    requires t0 == start + Out(indent, st0, w0) && s0 == End(st0, w0)
    requires t1 == t0 + Out(indent, s0, a) && s1 == End(s0, a)
    requires t2 == t1 + Out(indent, s1, b) && s2 == End(s1, b)
    ensures t2 == start + Out(indent, st0, w0 + a + b) && s2 == End(st0, w0 + a + b)
  {
    OneWrite(indent, st0, start, w0, a, t0, s0, t1, s1);
    OneWrite(indent, st0, start, w0 + a, b, t1, s1, t2, s2);
  }

  /** `CommaList`: writes the opening bracket before the first item and ", "
      before each later one; `Drop` closes it.  The ghost fields record what
      the list was given, to state its output. */
  class CommaList {
    const scope: Scope
    const brackets: Brackets
    var emptyList: bool
    var omitEmpty: bool
    ghost var items: seq<string>
    ghost const start: string
    ghost const st0: ScopeState

    /** What the list has written so far. */
    ghost function Written(): string
      reads this
    {
      Opened(brackets, items)
    }

    ghost predicate Valid()
      reads this, scope, scope.sink
    {
      && (emptyList <==> items == [])
      && scope.sink.text == start + Out(scope.indent, st0, Written())
      && scope.state == End(st0, Written())
    }

    /** `CommaList::new` */
    constructor (scope: Scope, brackets: Brackets)
      ensures this.scope == scope && this.brackets == brackets
      ensures emptyList && !omitEmpty && items == []
      ensures start == scope.sink.text && st0 == scope.state
      ensures Valid()
    {
      this.scope := scope;
      this.brackets := brackets;
      emptyList := true;
      omitEmpty := false;
      items := [];
      start := scope.sink.text;
      st0 := scope.state;
    }

    /** `omit_empty()` */
    method OmitEmpty()
      requires Valid()
      modifies this
      ensures Valid() && omitEmpty && items == old(items) && emptyList == old(emptyList)
    {
      omitEmpty := true;
    }

    /** `item(d)` */
    method Item(d: string)
      requires Valid()
      modifies this, scope, scope.sink
      ensures Valid() && items == old(items) + [d] && omitEmpty == old(omitEmpty)
    {
      var sep: string;
      if emptyList {
        sep := [Open(brackets)];
        emptyList := false;
      } else {
        sep := ", ";
      }
      ghost var w0 := Opened(brackets, items);
      ghost var t0, s0 := scope.sink.text, scope.state;
      scope.WriteStr(sep);
      ghost var t1, s1 := scope.sink.text, scope.state;
      scope.WriteStr(d);
      TwoWrites(scope.indent, st0, start, w0, sep, d, t0, s0, t1, s1, scope.sink.text, scope.state);
      OpenedAppend(brackets, items, d);
      items := items + [d];
    }

    /** `Drop::drop`: the closing bracket, or both brackets for an empty list
        unless it omits them. */
    method Drop()
      requires Valid()
      modifies scope, scope.sink
      ensures scope.sink.text == start + Out(scope.indent, st0, ListText(brackets, omitEmpty, items))
      ensures scope.state == End(st0, ListText(brackets, omitEmpty, items))
    {
      if emptyList {
        if omitEmpty {
          return;
        }
        var opening, closing := [Open(brackets)], [Close(brackets)];
        ghost var t0, s0 := scope.sink.text, scope.state;
        scope.WriteStr(opening);
        ghost var t1, s1 := scope.sink.text, scope.state;
        scope.WriteStr(closing);
        TwoWrites(scope.indent, st0, start, "", opening, closing, t0, s0, t1, s1, scope.sink.text, scope.state);
        assert ListText(brackets, omitEmpty, items) == "" + opening + closing;
      } else {
        ghost var t0, s0 := scope.sink.text, scope.state;
        var closing := [Close(brackets)];
        scope.WriteStr(closing);
        OneWrite(scope.indent, st0, start, Written(), closing, t0, s0, scope.sink.text, scope.state);
        assert ListText(brackets, omitEmpty, items) == Written() + closing;
      }
    }
  }

  /** `Scope::fmt`: a fresh top-level scope over the given sink. */
  method Fmt(sink: Sink, body: seq<Cmd>)
    modifies sink
    ensures sink.text == old(sink.text) + RenderOut(0, NeedIndent, body)
  {
    var s := new Scope(sink);
    s.Exec(body);
  }

  /** A whole line written at the start of a line: indented unless blank. */
  lemma FreshLine(indent: nat, d: string)
    requires '\n' !in d
    ensures RenderOut(indent, NeedIndent, LineCmds(d)) == IndentLine(indent, d) + "\n"
  {
    LineEnds(indent, NeedIndent, d);
    assert d + "\n" == d + "\n" + "";
    OutLineThenRest(indent, d, "");
  }

  /** A whole line written at the start of a line, appended to `t0`. */
  lemma LineStep(t0: string, indent: nat, d: string, t1: string)
    requires d != "" && '\n' !in d
    requires t1 == t0 + RenderOut(indent, NeedIndent, LineCmds(d))
    ensures t1 == t0 + Spaces(indent) + d + "\n"
    ensures indent == 0 ==> t1 == t0 + d + "\n"
  {
    FreshLine(indent, d);
    var sp := Spaces(indent);
    assert t1 == t0 + ((sp + d) + "\n");
    AppendAssoc(t0, sp + d, "\n");
    AppendAssoc(t0, sp, d);
    if indent == 0 {
      assert sp == [];
      assert t0 + sp == t0;
    }
  }

  /** The innermost block of the writer's test: three lines and a blank one
      in a child scope, which leaves the parent scope itself untouched. */
  method InnerLines(parent: Scope, first: string, second: string, last: string)
    requires first != "" && second != "" && last != ""
    requires '\n' !in first && '\n' !in second && '\n' !in last
    modifies parent.sink
    ensures parent.sink.text == old(parent.sink.text) + Spaces(parent.indent + 4) + first + "\n"
      + Spaces(parent.indent + 4) + second + "\n" + "\n" + Spaces(parent.indent + 4) + last + "\n"
  {
    var s := parent.Child();
    ghost var t0 := s.sink.text;
    s.Line(first);
    LineStep(t0, s.indent, first, s.sink.text);
    ghost var t1 := s.sink.text;
    s.Line(second);
    LineStep(t1, s.indent, second, s.sink.text);
    s.Lf();
    ghost var t2 := s.sink.text;
    s.Line(last);
    LineStep(t2, s.indent, last, s.sink.text);
  }

  /** The shape of the writer's own test: nested scopes indent four more
      columns each, a blank line gets no indentation, and leaving a scope
      returns to the parent's column. */
  method NestedScopes(header: string, open: string, first: string, second: string, last: string, close: string, footer: string)
    returns (text: string)
    requires header != "" && open != "" && first != "" && second != "" && last != "" && close != "" && footer != ""
    requires '\n' !in header && '\n' !in open && '\n' !in first && '\n' !in second
    requires '\n' !in last && '\n' !in close && '\n' !in footer
    ensures text == header + "\n" + Spaces(4) + open + "\n" + Spaces(8) + first + "\n" + Spaces(8) + second + "\n"
      + "\n" + Spaces(8) + last + "\n" + Spaces(4) + close + "\n" + footer + "\n"
  {
    var sink := new Sink();
    var s := new Scope(sink);
    s.Line(header);
    LineStep("", 0, header, sink.text);
    assert "" + header == header;
    MiddleBlock(s, open, first, second, last, close);
    ghost var t := sink.text;
    s.Line(footer);
    LineStep(t, 0, footer, sink.text);
    text := sink.text;
  }

  /** The middle block of the writer's test, in a child scope. */
  method MiddleBlock(parent: Scope, open: string, first: string, second: string, last: string, close: string)
    requires open != "" && first != "" && second != "" && last != "" && close != ""
    requires '\n' !in open && '\n' !in first && '\n' !in second && '\n' !in last && '\n' !in close
    modifies parent.sink
    ensures parent.sink.text == old(parent.sink.text) + Spaces(parent.indent + 4) + open + "\n"
      + Spaces(parent.indent + 8) + first + "\n" + Spaces(parent.indent + 8) + second + "\n" + "\n"
      + Spaces(parent.indent + 8) + last + "\n" + Spaces(parent.indent + 4) + close + "\n"
  {
    var s := parent.Child();
    ghost var t0 := s.sink.text;
    s.Line(open);
    LineStep(t0, s.indent, open, s.sink.text);
    InnerLines(s, first, second, last);
    ghost var t1 := s.sink.text;
    s.Line(close);
    LineStep(t1, s.indent, close, s.sink.text);
  }

  /** `test_scope`, with its literal lines. */
  method TestScope() returns (text: string)
    ensures text == "fn sample() {" + "\n"
      + "    " + "let a = {" + "\n"
      + "        " + "let tmp = 7;" + "\n"
      + "        " + "// a blank line follows" + "\n"
      + "\n"
      + "        " + "tmp + 3" + "\n"
      + "    " + "};" + "\n"
      + "}" + "\n"
  {
    var tmp := "let tmp = " + NatToString(7) + ";";
    assert tmp == "let tmp = 7;";
    assert Spaces(4) == "    " && Spaces(8) == "        ";
    text := NestedScopes("fn sample() {", "let a = {", tmp, "// a blank line follows", "tmp + 3", "};", "}");
  }
}
