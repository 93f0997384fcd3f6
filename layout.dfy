/** Layout facts about command lists, used by every emitter of the newer
    generator.  The newer generator writes through a `Scope` with the same
    `write`/`line`/`in_block`/`in_scope`/`in_list` contract as the older
    one (lavish/src/codegen/rust/output.rs), so its writes are modelled with
    the same commands and the same reference semantics. */
module Layout {
  import opened Common
  import opened LavishOutput

  /** Plain writes, one per string. */
  function Texts(ts: seq<string>): (r: seq<Cmd>)
    ensures |r| == |ts| && forall k :: 0 <= k < |ts| ==> r[k] == Text(ts[k])
  {
    if ts == [] then [] else Texts(ts[..|ts| - 1]) + [Text(ts[|ts| - 1])]
  }

  /** At column 0 the writer adds nothing: what is written is what comes
      out. */
  lemma {:induction false} OutFlat(st: ScopeState, s: string)
    ensures Out(0, st, s) == s
    decreases |s|
  {
    if s != "" {
      assert Spaces(0) == "";
      OutFlat(After(s[0]), s[1..]);
      assert s == [s[0]] + s[1..];
    }
  }

  lemma ConcatLast(ts: seq<string>)
    requires ts != []
    ensures Concat(ts) == Concat(ts[..|ts| - 1]) + ts[|ts| - 1]
  {
    ConcatAppend(ts[..|ts| - 1], [ts[|ts| - 1]]);
    assert ts[..|ts| - 1] + [ts[|ts| - 1]] == ts;
    assert Concat([ts[|ts| - 1]]) == ts[|ts| - 1] + Concat([]);
  }

  /** Plain writes at column 0 come out concatenated. */
  lemma {:induction false} TextsFlat(st: ScopeState, ts: seq<string>)
    ensures RenderOut(0, st, Texts(ts)) == Concat(ts)
  {
    if ts != [] {
      var init := ts[..|ts| - 1];
      assert Texts(ts)[..|ts| - 1] == Texts(init);
      TextsFlat(st, init);
      OutFlat(RenderEnd(st, Texts(init)), ts[|ts| - 1]);
      ConcatLast(ts);
    }
  }

  /** One `line(d)` per string. */
  function LinesCmds(ls: seq<string>): seq<Cmd>
  {
    if ls == [] then [] else LinesCmds(ls[..|ls| - 1]) + LineCmds(ls[|ls| - 1])
  }

  /** The text of whole lines at an indentation: every non-empty line gets
      the indentation, every line its newline. */
  function LinesText(indent: nat, ls: seq<string>): string
  {
    if ls == [] then "" else LinesText(indent, ls[..|ls| - 1]) + IndentLine(indent, ls[|ls| - 1]) + "\n"
  }

  /** Lines written from the start of a line are laid out one per line, at
      the scope's indentation, and leave the scope at the start of a line. */
  lemma {:induction false} LinesLayout(indent: nat, ls: seq<string>)
    requires forall k :: 0 <= k < |ls| ==> '\n' !in ls[k]
    ensures RenderOut(indent, NeedIndent, LinesCmds(ls)) == LinesText(indent, ls)
    ensures RenderEnd(NeedIndent, LinesCmds(ls)) == NeedIndent
  {
    if ls != [] {
      var init, last := ls[..|ls| - 1], ls[|ls| - 1];
      assert forall k :: 0 <= k < |init| ==> init[k] == ls[k];
      assert '\n' !in last;
      LinesLayout(indent, init);
      var before := LinesCmds(init);
      assert LinesCmds(ls) == before + LineCmds(last);
      RenderAppend(indent, NeedIndent, before, LineCmds(last));
      LineEnds(indent, NeedIndent, last);
      FreshLine(indent, last);
    }
  }

  lemma {:induction false} LinesAppend(indent: nat, a: seq<string>, b: seq<string>)
    ensures LinesText(indent, a + b) == LinesText(indent, a) + LinesText(indent, b)
    decreases |b|
  {
    if b == [] {
      assert a + b == a;
    } else {
      var init, last := b[..|b| - 1], b[|b| - 1];
      assert (a + b)[..|a + b| - 1] == a + init;
      assert (a + b)[|a + b| - 1] == last;
      LinesAppend(indent, a, init);
      var x, y, il := LinesText(indent, a), LinesText(indent, init), IndentLine(indent, last);
      assert LinesText(indent, a + b) == (x + y) + il + "\n";
      assert LinesText(indent, b) == y + il + "\n";
      AppendAssoc(x, y, il);
      AppendAssoc(x, y + il, "\n");
    }
  }

  /** A heading written at the start of a line and followed by `in_block`:
      the heading and " {" on one line, the body one level deeper, and "}"
      back at the heading's column. */
  lemma HeadBlock(indent: nat, h: string, body: seq<Cmd>)
    requires h != "" && '\n' !in h
    ensures RenderOut(indent, NeedIndent, [Text(h)] + BlockCmds(body))
      == Spaces(indent) + h + " {\n" + RenderOut(indent + IndentWidth, NeedIndent, body) + Spaces(indent) + "}\n"
    ensures RenderEnd(NeedIndent, [Text(h)] + BlockCmds(body)) == NeedIndent
  {
    var x, r, sp := Spaces(indent) + h, RenderOut(indent + IndentWidth, NeedIndent, body), Spaces(indent);
    OneText(indent, NeedIndent, h);
    OutToken(indent, NeedIndent, h);
    OpenLine(indent);
    BlockLayout(indent, Indented, body);
    RenderAppend(indent, NeedIndent, [Text(h)], BlockCmds(body));
    Assoc5(x, " {\n", r, sp, "}\n");
  }

  /** " {" and a newline, written mid-line, come out as they are. */
  lemma OpenLine(indent: nat)
    ensures Out(indent, Indented, " {\n") == " {\n"
  {
    OutToken(indent, Indented, " {");
    OutAppend(indent, Indented, " {", "\n");
    assert Out(indent, Indented, "\n") == "\n";
  }

  lemma Concat2(a: string, b: string)
    ensures Concat([a, b]) == a + b
  {
    assert [a, b][1..] == [b];
    assert Concat([b]) == b + Concat([]);
  }

  lemma Concat3(a: string, b: string, c: string)
    ensures Concat([a, b, c]) == a + b + c
  {
    assert [a, b, c][1..] == [b, c];
    Concat2(b, c);
  }

  lemma Concat4(a: string, b: string, c: string, d: string)
    ensures Concat([a, b, c, d]) == a + b + c + d
  {
    assert [a, b, c, d][1..] == [b, c, d];
    Concat3(b, c, d);
  }

  /** Plain writes, then anything: at column 0 the writes come out
      concatenated in front. */
  lemma TextsThen(st: ScopeState, ts: seq<string>, tail: seq<Cmd>)
    ensures RenderOut(0, st, Texts(ts) + tail) == Concat(ts) + RenderOut(0, RenderEnd(st, Texts(ts)), tail)
  {
    RenderAppend(0, st, Texts(ts), tail);
    TextsFlat(st, ts);
  }

  lemma TextsTwiceThen(st: ScopeState, ts: seq<string>, us: seq<string>, tail: seq<Cmd>)
    ensures RenderOut(0, st, Texts(ts) + (Texts(us) + tail))
      == Concat(ts) + Concat(us) + RenderOut(0, RenderEnd(RenderEnd(st, Texts(ts)), Texts(us)), tail)
  {
    TextsThen(st, ts, Texts(us) + tail);
    TextsThen(RenderEnd(st, Texts(ts)), us, tail);
  }

  /** `in_block` at column 0. */
  lemma FlatBlock(st: ScopeState, body: seq<Cmd>)
    ensures RenderOut(0, st, BlockCmds(body)) == " {\n" + RenderOut(IndentWidth, NeedIndent, body) + "}\n"
  {
    BlockLayout(0, st, body);
    OutFlat(st, " {\n");
    assert Spaces(0) == "";
  }

  /** A write and a newline at column 0. */
  lemma FlatLine(st: ScopeState, s: string)
    ensures RenderOut(0, st, Texts([s, "\n"])) == s + "\n"
  {
    TextsFlat(st, [s, "\n"]);
    Concat2(s, "\n");
  }

  /** At column 0 the state a list starts in makes no difference. */
  lemma {:induction false} FlatAnyState(st: ScopeState, cmds: seq<Cmd>)
    ensures RenderOut(0, st, cmds) == RenderOut(0, NeedIndent, cmds)
  {
    if cmds != [] {
      var init := cmds[..|cmds| - 1];
      FlatAnyState(st, init);
      if cmds[|cmds| - 1].Text? {
        OutFlat(RenderEnd(st, init), cmds[|cmds| - 1].s);
        OutFlat(RenderEnd(NeedIndent, init), cmds[|cmds| - 1].s);
      }
    }
  }

  /** At column 0, one list after another renders as the two texts one
      after the other. */
  lemma FlatAppend(a: seq<Cmd>, b: seq<Cmd>)
    ensures RenderOut(0, NeedIndent, a + b) == RenderOut(0, NeedIndent, a) + RenderOut(0, NeedIndent, b)
  {
    RenderAppend(0, NeedIndent, a, b);
    FlatAnyState(RenderEnd(NeedIndent, a), b);
  }

  lemma FlatAppend3(a: seq<Cmd>, b: seq<Cmd>, c: seq<Cmd>)
    ensures RenderOut(0, NeedIndent, a + b + c) == RenderOut(0, NeedIndent, a) + RenderOut(0, NeedIndent, b) + RenderOut(0, NeedIndent, c)
  {
    FlatAppend(a + b, c);
    FlatAppend(a, b);
  }

  /** One write. */
  lemma OneText(indent: nat, st: ScopeState, s: string)
    ensures RenderOut(indent, st, [Text(s)]) == Out(indent, st, s)
  {
    assert [Text(s)][..0] == [];
  }

  /** A write then `in_block` at column 0: the head, then " {", the body one
      level deeper, and "}" at column 0. */
  lemma FlatHeadBlock(h: string, body: seq<Cmd>)
    ensures RenderOut(0, NeedIndent, [Text(h)] + BlockCmds(body))
      == h + " {\n" + RenderOut(IndentWidth, NeedIndent, body) + "}\n"
  {
    RenderAppend(0, NeedIndent, [Text(h)], BlockCmds(body));
    OneText(0, NeedIndent, h);
    OutFlat(NeedIndent, h);
    FlatBlock(RenderEnd(NeedIndent, [Text(h)]), body);
  }

  /** Two writes in a row are one write of both. */
  lemma TwoTexts(indent: nat, st: ScopeState, a: string, b: string)
    ensures RenderOut(indent, st, [Text(a), Text(b)]) == Out(indent, st, a + b)
  {
    assert [Text(a), Text(b)][..1] == [Text(a)];
    OneText(indent, st, a);
    OutAppend(indent, st, a, b);
  }

  /** A line, a child scope one level deeper, a line: the pattern of a
      call whose arguments are written one per line. */
  lemma LinesAround(indent: nat, open: string, inner: seq<Cmd>, close: string)
    requires '\n' !in open && '\n' !in close
    ensures RenderOut(indent, NeedIndent, LineCmds(open) + [Nested(inner)] + LineCmds(close))
      == IndentLine(indent, open) + "\n" + RenderOut(indent + IndentWidth, NeedIndent, inner) + IndentLine(indent, close) + "\n"
  {
    var a, n, c := LineCmds(open), [Nested(inner)], LineCmds(close);
    var x, y, z := IndentLine(indent, open) + "\n", RenderOut(indent + IndentWidth, NeedIndent, inner), IndentLine(indent, close) + "\n";
    LineEnds(indent, NeedIndent, open);
    FreshLine(indent, open);
    NestedAlone(indent, inner);
    FreshLine(indent, close);
    RenderAppend(indent, NeedIndent, a, n);
    assert RenderOut(indent, NeedIndent, a + n) == x + y && RenderEnd(NeedIndent, a + n) == NeedIndent;
    RenderAppend(indent, NeedIndent, a + n, c);
    assert RenderOut(indent, NeedIndent, a + n + c) == x + y + z;
  }

  /** A heading, a block of whole lines, then a blank line (`lf`), at
      column 0. */
  lemma HeadLinesBlank(h: string, ls: seq<string>)
    requires forall k :: 0 <= k < |ls| ==> '\n' !in ls[k]
    ensures RenderOut(0, NeedIndent, [Text(h)] + BlockCmds(LinesCmds(ls)) + [Text("\n")])
      == h + " {\n" + LinesText(IndentWidth, ls) + "}\n" + "\n"
  {
    FlatAppend([Text(h)] + BlockCmds(LinesCmds(ls)), [Text("\n")]);
    FlatHeadBlock(h, LinesCmds(ls));
    LinesLayout(IndentWidth, ls);
    OneText(0, NeedIndent, "\n");
    OutFlat(NeedIndent, "\n");
  }

  /** Whole lines at column 0 come out as written, whatever they hold. */
  lemma {:induction false} FlatLines(ls: seq<string>)
    ensures RenderOut(0, NeedIndent, LinesCmds(ls)) == LinesText(0, ls)
  {
    if ls != [] {
      var init, last := ls[..|ls| - 1], ls[|ls| - 1];
      FlatLines(init);
      assert LinesCmds(ls) == LinesCmds(init) + LineCmds(last);
      FlatAppend(LinesCmds(init), LineCmds(last));
      assert Texts([last, "\n"]) == LineCmds(last);
      FlatLine(NeedIndent, last);
      assert IndentLine(0, last) == last by {
        assert Spaces(0) == "";
      }
      assert LinesText(0, ls) == LinesText(0, init) + IndentLine(0, last) + "\n";
    }
  }

  /** At column 0 a line is not indented. */
  lemma {:induction false} LinesTextFlat(ls: seq<string>)
    ensures LinesText(0, ls) == Concat(Suffixed(ls, "\n"))
  {
    if ls != [] {
      LinesTextFlat(ls[..|ls| - 1]);
      assert Suffixed(ls, "\n") == Suffixed(ls[..|ls| - 1], "\n") + [ls[|ls| - 1] + "\n"];
      ConcatAppend(Suffixed(ls[..|ls| - 1], "\n"), [ls[|ls| - 1] + "\n"]);
      assert Concat([ls[|ls| - 1] + "\n"]) == ls[|ls| - 1] + "\n" + Concat([]);
      assert Spaces(0) == "";
      AppendAssoc(LinesText(0, ls[..|ls| - 1]), IndentLine(0, ls[|ls| - 1]), "\n");
    }
  }

  /** Every string with a suffix appended. */
  function Suffixed(ls: seq<string>, suffix: string): (r: seq<string>)
    ensures |r| == |ls| && forall k :: 0 <= k < |ls| ==> r[k] == ls[k] + suffix
  {
    if ls == [] then [] else Suffixed(ls[..|ls| - 1], suffix) + [ls[|ls| - 1] + suffix]
  }

  /** `in_terminated_block(term, f)`: like `in_block`, with `term` written
      after the closing brace on its line. */
  function TermBlockCmds(term: string, body: seq<Cmd>): seq<Cmd>
  {
    LineCmds(" {") + [Nested(body)] + LineCmds("}" + term)
  }

  /** A heading and a terminated block, from the start of a line. */
  lemma HeadTermBlock(indent: nat, h: string, term: string, body: seq<Cmd>)
    requires h != "" && '\n' !in h && '\n' !in term
    ensures RenderOut(indent, NeedIndent, [Text(h)] + TermBlockCmds(term, body))
      == Spaces(indent) + h + " {\n" + RenderOut(indent + IndentWidth, NeedIndent, body) + (Spaces(indent) + ("}" + term)) + "\n"
    ensures RenderEnd(NeedIndent, [Text(h)] + TermBlockCmds(term, body)) == NeedIndent
  {
    var open := [Text(h)] + LineCmds(" {");
    var close := [Nested(body)] + LineCmds("}" + term);
    assert [Text(h)] + TermBlockCmds(term, body) == open + close;
    RenderAppend(indent, NeedIndent, open, close);
    HeadOpen(indent, h);
    NestedThenLine(indent, body, "}" + term);
  }

  /** A heading and " {", ending the line. */
  lemma HeadOpen(indent: nat, h: string)
    requires h != "" && '\n' !in h
    ensures RenderOut(indent, NeedIndent, [Text(h)] + LineCmds(" {")) == Spaces(indent) + h + " {\n"
    ensures RenderEnd(NeedIndent, [Text(h)] + LineCmds(" {")) == NeedIndent
  {
    RenderAppend(indent, NeedIndent, [Text(h)], LineCmds(" {"));
    OneText(indent, NeedIndent, h);
    OutToken(indent, NeedIndent, h);
    assert RenderEnd(NeedIndent, [Text(h)]) == Indented;
    LineEnds(indent, Indented, " {");
    OutAppend(indent, Indented, " {", "\n");
    OutToken(indent, Indented, " {");
  }

  /** A child scope, then a line back at the scope's indentation. */
  lemma NestedThenLine(indent: nat, body: seq<Cmd>, c: string)
    requires c != "" && '\n' !in c
    ensures RenderOut(indent, NeedIndent, [Nested(body)] + LineCmds(c))
      == RenderOut(indent + IndentWidth, NeedIndent, body) + (Spaces(indent) + c) + "\n"
    ensures RenderEnd(NeedIndent, [Nested(body)] + LineCmds(c)) == NeedIndent
  {
    RenderAppend(indent, NeedIndent, [Nested(body)], LineCmds(c));
    NestedAlone(indent, body);
    FreshLine(indent, c);
    assert IndentLine(indent, c) == Spaces(indent) + c;
    LineEnds(indent, NeedIndent, c);
  }

  lemma NestedAlone(indent: nat, body: seq<Cmd>)
    ensures RenderOut(indent, NeedIndent, [Nested(body)]) == RenderOut(indent + IndentWidth, NeedIndent, body)
    ensures RenderEnd(NeedIndent, [Nested(body)]) == NeedIndent
  {
    assert [Nested(body)][..0] == [];
  }

  /** After a list that ends at the start of a line, the next list renders
      as if on its own. */
  lemma AppendAtLineStart(indent: nat, a: seq<Cmd>, b: seq<Cmd>)
    requires RenderEnd(NeedIndent, a) == NeedIndent
    ensures RenderOut(indent, NeedIndent, a + b) == RenderOut(indent, NeedIndent, a) + RenderOut(indent, NeedIndent, b)
    ensures RenderEnd(NeedIndent, a + b) == RenderEnd(NeedIndent, b)
  {
    RenderAppend(indent, NeedIndent, a, b);
  }

  /** A whole line from the start of a line. */
  lemma OneLine(indent: nat, d: string)
    requires '\n' !in d
    ensures RenderOut(indent, NeedIndent, LineCmds(d)) == IndentLine(indent, d) + "\n"
    ensures RenderEnd(NeedIndent, LineCmds(d)) == NeedIndent
  {
    FreshLine(indent, d);
    LineEnds(indent, NeedIndent, d);
  }

  /** Three lists, each ending at the start of a line, render one after
      another. */
  lemma Join3(indent: nat, p: seq<Cmd>, q: seq<Cmd>, r: seq<Cmd>, x: string, y: string, z: string)
    requires RenderOut(indent, NeedIndent, p) == x && RenderEnd(NeedIndent, p) == NeedIndent
    requires RenderOut(indent, NeedIndent, q) == y && RenderEnd(NeedIndent, q) == NeedIndent
    requires RenderOut(indent, NeedIndent, r) == z
    ensures RenderOut(indent, NeedIndent, p + q + r) == x + y + z
    ensures RenderEnd(NeedIndent, p + q + r) == RenderEnd(NeedIndent, r)
  {
    AppendAtLineStart(indent, p, q);
    AppendAtLineStart(indent, p + q, r);
  }

  /** Three lists at column 0 render one after another. */
  lemma FlatJoin3(p: seq<Cmd>, q: seq<Cmd>, r: seq<Cmd>, x: string, y: string, z: string)
    requires RenderOut(0, NeedIndent, p) == x && RenderOut(0, NeedIndent, q) == y && RenderOut(0, NeedIndent, r) == z
    ensures RenderOut(0, NeedIndent, p + q + r) == x + y + z
  {
    FlatAppend3(p, q, r);
  }

  /** A newline after anything comes out as itself and ends the line,
      whatever state the list before it left. */
  lemma ThenBlank(indent: nat, a: seq<Cmd>)
    ensures RenderOut(indent, NeedIndent, a + [Text("\n")]) == RenderOut(indent, NeedIndent, a) + "\n"
    ensures RenderEnd(NeedIndent, a + [Text("\n")]) == NeedIndent
  {
    RenderAppend(indent, NeedIndent, a, [Text("\n")]);
    OneText(indent, RenderEnd(NeedIndent, a), "\n");
    EndsWithNewline(NeedIndent, a);
  }

  /** A list whose last command writes a newline ends at the start of a
      line, from any state. */
  lemma EndsWithNewline(st: ScopeState, a: seq<Cmd>)
    ensures RenderEnd(st, a + [Text("\n")]) == NeedIndent
  {
    assert (a + [Text("\n")])[..|a|] == a;
  }

  /** Whole lines, whatever they hold, leave the scope at the start of a
      line. */
  lemma LinesEnd(ls: seq<string>)
    ensures RenderEnd(NeedIndent, LinesCmds(ls)) == NeedIndent
  {
    if ls != [] {
      var before := LinesCmds(ls[..|ls| - 1]) + [Text(ls[|ls| - 1])];
      assert LinesCmds(ls) == before + [Text("\n")];
      EndsWithNewline(NeedIndent, before);
    }
  }

  /** A module block at column 0 whose body is three lists, the first two
      ending at the start of a line. */
  lemma FlatHeadBlock3(h: string, a: seq<Cmd>, b: seq<Cmd>, c: seq<Cmd>)
    requires RenderEnd(NeedIndent, a) == NeedIndent && RenderEnd(NeedIndent, b) == NeedIndent
    ensures RenderOut(0, NeedIndent, [Text(h)] + BlockCmds(a + b + c))
      == h + " {\n"
        + (RenderOut(IndentWidth, NeedIndent, a) + RenderOut(IndentWidth, NeedIndent, b) + RenderOut(IndentWidth, NeedIndent, c))
        + "}\n"
  {
    FlatHeadBlock(h, a + b + c);
    Join3(IndentWidth, a, b, c, RenderOut(IndentWidth, NeedIndent, a), RenderOut(IndentWidth, NeedIndent, b), RenderOut(IndentWidth, NeedIndent, c));
  }
}
