/** The parser input of the older generation (lavish/src/parser/span.rs): a
    window `offset .. offset+len` into a shared source text.  Input is taken to
    be ASCII, so a char index and a byte index coincide. */
module LavishSpan {
  import opened Common

  /** The shared source behind an `Rc`: `id` stands for the pointer identity
      that `Rc::ptr_eq` compares. */
  datatype Source = Source(id: nat, name: string, input: string, lines: seq<string>)

  datatype Span = Span(source: Source, offset: nat, len: nat)

  ghost predicate ValidSpan(sp: Span)
  {
    sp.offset + sp.len <= |sp.source.input|
  }

  /** The text the span covers. */
  function Slice(sp: Span): (r: string)
    requires ValidSpan(sp)
    ensures |r| == sp.len
    ensures forall k :: 0 <= k < sp.len ==> r[k] == sp.source.input[sp.offset + k]
  {
    sp.source.input[sp.offset..sp.offset + sp.len]
  }

  /** `InputTake::take` */
  function Take(sp: Span, count: nat): (r: Span)
  {
    Span(sp.source, sp.offset, count)
  }

  /** `InputTake::take_split`: (suffix, prefix).  The subtraction `len - count`
      underflows when `count > len`, so callers must stay inside the span. */
  function TakeSplit(sp: Span, count: nat): (r: (Span, Span))
    requires count <= sp.len
  {
    (Span(sp.source, sp.offset + count, sp.len - count), Span(sp.source, sp.offset, count))
  }

  /** `Slice<RangeFrom>`: `span.slice(start..)`. */
  function SliceFrom(sp: Span, start: nat): (r: Span)
    requires start <= sp.len
  {
    Span(sp.source, sp.offset + start, sp.len - start)
  }

  /** `Slice<RangeTo>`: `span.slice(..end)`. */
  function SliceTo(sp: Span, end: nat): (r: Span)
  {
    Span(sp.source, sp.offset, end)
  }

  /** `Offset::offset`: how far `second` starts after `first`. */
  function Offset(first: Span, second: Span): (r: nat)
    requires first.offset <= second.offset
  {
    second.offset - first.offset
  }

  /** `PartialEq`: the same shared source (pointer equality), offset and length. */
  predicate Eq(a: Span, b: Span)
  {
    a.source.id == b.source.id && a.offset == b.offset && a.len == b.len
  }

  lemma TakeIsPrefix(sp: Span, count: nat)
    requires ValidSpan(sp) && count <= sp.len
    ensures ValidSpan(Take(sp, count)) && Slice(Take(sp, count)) == Slice(sp)[..count]
    ensures Take(sp, count).offset == sp.offset
  {
  }

  /** The two halves of `take_split` are adjacent, their lengths add up to the
      original and their texts concatenate back to it. */
  lemma TakeSplitAdjacent(sp: Span, count: nat)
    requires ValidSpan(sp) && count <= sp.len
    ensures var (suffix, prefix) := TakeSplit(sp, count);
      ValidSpan(suffix) && ValidSpan(prefix)
      && prefix.offset == sp.offset && prefix.offset + prefix.len == suffix.offset
      && prefix.len + suffix.len == sp.len
      && Slice(prefix) + Slice(suffix) == Slice(sp)
      && prefix == Take(sp, count)
  {
    var (suffix, prefix) := TakeSplit(sp, count);
    assert Slice(prefix) + Slice(suffix) == Slice(sp);
  }

  lemma SliceFromIsSuffix(sp: Span, start: nat)
    requires ValidSpan(sp) && start <= sp.len
    ensures ValidSpan(SliceFrom(sp, start)) && Slice(SliceFrom(sp, start)) == Slice(sp)[start..]
    ensures Offset(sp, SliceFrom(sp, start)) == start
  {
  }

  lemma SliceToIsPrefix(sp: Span, end: nat)
    requires ValidSpan(sp) && end <= sp.len
    ensures ValidSpan(SliceTo(sp, end)) && Slice(SliceTo(sp, end)) == Slice(sp)[..end]
  {
  }

  /** Spans on the same source (one `Rc`) are equal exactly when they are
      the same window, and then they cover the same text. */
  lemma EqIsIdentity(a: Span, b: Span)
    requires a.source == b.source && ValidSpan(a) && ValidSpan(b)
    ensures Eq(a, b) <==> a == b
    ensures Eq(a, b) ==> Slice(a) == Slice(b)
  {
  }

  datatype CompareResult = CmpOk | CmpError | CmpIncomplete

  /** `Compare::compare` */
  function Compare(sp: Span, t: string): (r: CompareResult)
    requires ValidSpan(sp)
    ensures r == CmpError <==> exists k :: 0 <= k < sp.len && k < |t| && Slice(sp)[k] != t[k]
    ensures r == CmpOk <==> Slice(sp)[..if sp.len < |t| then sp.len else |t|] == t
  {
    match FirstMismatch(Slice(sp), t)
    case Some(_) => CmpError
    case None => if sp.len >= |t| then CmpOk else CmpIncomplete
  }

  /** `Compare::compare_no_case`: the same after lower-casing both sides. */
  function CompareNoCase(sp: Span, t: string): (r: CompareResult)
    requires ValidSpan(sp)
    ensures r == CmpError <==> exists k :: 0 <= k < sp.len && k < |t| && LowerChar(Slice(sp)[k]) != LowerChar(t[k])
    ensures r != CmpError ==> (r == CmpOk <==> sp.len >= |t|)
  {
    match FirstMismatch(Lower(Slice(sp)), Lower(t))
    case Some(_) => CmpError
    case None => if sp.len >= |t| then CmpOk else CmpIncomplete
  }

  /** Total width of `lines` when each is followed by its '\n'. */
  function Width(lines: seq<string>): nat
  {
    if lines == [] then 0 else |lines[0]| + 1 + Width(lines[1..])
  }

  lemma WidthAppend(lines: seq<string>, l: string)
    ensures Width(lines + [l]) == Width(lines) + |l| + 1
  {
    if lines != [] {
      assert (lines + [l])[1..] == lines[1..] + [l];
      WidthAppend(lines[1..], l);
    }
  }

  /** The line/column reached by walking `lines` from `offset`, if any line
      holds it: the reference for `position`. */
  function FindLine(lines: seq<string>, offset: nat): (r: Option<(nat, nat)>)
  {
    if lines == [] then None
    else if offset <= |lines[0]| then Some((0, offset))
    else match FindLine(lines[1..], offset - |lines[0]| - 1)
      case None => None
      case Some(lc) => Some((lc.0 + 1, lc.1))
  }

  /** `FindLine` inverts the layout of the lines: it finds (l, c) exactly
      when `offset` is column `c` of line `l`, and nothing when `offset` lies
      past the last line's end. */
  lemma {:induction false} FindLineSpec(lines: seq<string>, offset: nat, l: nat, c: nat)
    ensures FindLine(lines, offset) == Some((l, c)) <==>
      (l < |lines| && c <= |lines[l]| && offset == Width(lines[..l]) + c)
  {
    if lines != [] {
      var rest := lines[1..];
      if offset <= |lines[0]| {
        assert lines[..0] == [];
      } else {
        FindLineSpec(rest, offset - |lines[0]| - 1, if l > 0 then l - 1 else 0, c);
        if 0 < l < |lines| {
          assert lines[..l][1..] == rest[..l - 1];
          assert lines[l] == rest[l - 1];
        } else if l == 0 {
          assert lines[..0] == [];
        }
      }
    }
  }

  lemma {:induction false} FindLineNone(lines: seq<string>, offset: nat)
    ensures FindLine(lines, offset) == None <==> offset >= Width(lines)
  {
    if lines != [] && offset > |lines[0]| {
      FindLineNone(lines[1..], offset - |lines[0]| - 1);
    }
  }

  /** Where `Span::position` places a span: the line and column that hold
      its offset, or (0, 0) when no line does. */
  function PositionOf(sp: Span): (nat, nat)
  {
    match FindLine(sp.source.lines, sp.offset)
    case Some(lc) => lc
    case None => (0, 0)
  }

  /** `Span::position`: walks the source's lines, subtracting each skipped
      line and its '\n'. */
  method Position(sp: Span) returns (line: nat, column: nat)
    ensures (line, column) == PositionOf(sp)
  {
    var lines := sp.source.lines;
    var offset: nat := sp.offset;
    line, column := 0, 0;
    var j := 0;
    while j < |lines|
      invariant 0 <= j <= |lines|
      invariant FindLine(lines, sp.offset) == match FindLine(lines[j..], offset)
        case None => None
        case Some(lc) => Some((lc.0 + j, lc.1))
    {
      assert lines[j..][1..] == lines[j + 1..];
      if offset <= |lines[j]| {
        line := j;
        column := offset;
        return;
      }
      offset := offset - |lines[j]| - 1;
      j := j + 1;
    }
  }

  /** A file that ends with '\n' has no line holding its end: `position` of
      the end of input is reported as (0, 0). */
  lemma PositionAtEndAfterNewline()
    ensures FindLine(Lines("ab\n"), 3) == None
  {
    assert Lines("ab\n") == ["ab"] by {
      assert IndexOf("ab\n", '\n') == Some(2);
      assert "ab\n"[..2] == "ab";
      assert "ab\n"[3..] == "";
    }
  }

  /** `SpanIterElem` / `SpanIter`: a cursor over the span's chars. */
  class CharIter {
    const span: Span
    var offset: nat

    ghost predicate Valid()
      reads this
    {
      ValidSpan(span) && offset <= span.len
    }

    /** `Span::chars` / `Span::char_indices`: start at the first char. */
    constructor (sp: Span)
      requires ValidSpan(sp)
      ensures Valid() && span == sp && offset == 0
    {
      span := sp;
      offset := 0;
    }

    /** `next` of `SpanIter`: the current index and char, then one char on. */
    method NextIndexed() returns (r: Option<(nat, char)>)
      requires Valid()
      modifies this
      ensures Valid()
      ensures old(offset) < span.len ==> r == Some((old(offset), Slice(span)[old(offset)])) && offset == old(offset) + 1
      ensures old(offset) >= span.len ==> r == None && offset == old(offset)
    {
      if offset < span.len {
        r := Some((offset, Slice(span)[offset]));
        offset := offset + 1;
      } else {
        r := None;
      }
    }

    /** `next` of `SpanIterElem`. */
    method Next() returns (r: Option<char>)
      requires Valid()
      modifies this
      ensures Valid()
      ensures old(offset) < span.len ==> r == Some(Slice(span)[old(offset)]) && offset == old(offset) + 1
      ensures old(offset) >= span.len ==> r == None && offset == old(offset)
    {
      var ic := NextIndexed();
      r := if ic.Some? then Some(ic.value.1) else None;
    }
  }

  /** Draining `chars()` yields exactly the span's text. */
  method Chars(sp: Span) returns (cs: string)
    requires ValidSpan(sp)
    ensures cs == Slice(sp)
  {
    var it := new CharIter(sp);
    cs := "";
    while true
      invariant it.Valid() && it.span == sp && cs == Slice(sp)[..it.offset]
      decreases sp.len - it.offset
    {
      var c := it.Next();
      if c.None? {
        assert cs == Slice(sp);
        return;
      }
      cs := cs + [c.value];
    }
  }

  /** `InputIter::position`: index of the first char satisfying `p`. */
  method FindChar(sp: Span, p: char -> bool) returns (r: Option<nat>)
    requires ValidSpan(sp)
    ensures r.Some? ==> (r.value < sp.len && p(Slice(sp)[r.value])
      && forall k :: 0 <= k < r.value ==> !p(Slice(sp)[k]))
    ensures r.None? ==> forall k :: 0 <= k < sp.len ==> !p(Slice(sp)[k])
  {
    var it := new CharIter(sp);
    while true
      invariant it.Valid() && it.span == sp
      invariant forall k :: 0 <= k < it.offset ==> !p(Slice(sp)[k])
      decreases sp.len - it.offset
    {
      var ic := it.NextIndexed();
      match ic
      case None =>
        return None;
      case Some((o, c)) =>
        if p(c) {
          return Some(o);
        }
    }
  }

  /** `InputIter::slice_index`: byte index of the `count`-th char; the span's
      length when `count` is the char count; None beyond. */
  method SliceIndex(sp: Span, count: nat) returns (r: Option<nat>)
    requires ValidSpan(sp)
    ensures r == if count <= sp.len then Some(count) else None
  {
    var cnt := 0;
    var it := new CharIter(sp);
    while true
      invariant it.Valid() && it.span == sp
      invariant cnt == it.offset && cnt <= count
      decreases sp.len - it.offset
    {
      var ic := it.NextIndexed();
      if ic.None? {
        break;
      }
      if cnt == count {
        return Some(ic.value.0);
      }
      cnt := cnt + 1;
    }
    if cnt == count {
      return Some(sp.len);
    }
    return None;
  }

  /** `FindSubstring::find_substring`: first occurrence of `sub` in the text. */
  function FindSubstring(sp: Span, sub: string): (r: Option<nat>)
    requires ValidSpan(sp)
    ensures r.Some? ==> OccursAt(Slice(sp), sub, r.value)
    ensures r.Some? ==> forall k: nat :: k < r.value ==> !OccursAt(Slice(sp), sub, k)
    ensures r.None? ==> forall k: nat :: !OccursAt(Slice(sp), sub, k)
  {
    FindFrom(Slice(sp), sub, 0)
  }
}
