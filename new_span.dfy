/** The parser input of the newer generation (src/parser/span.rs).  It has
    the same window arithmetic as the older span but no `position`; its
    iterators count chars with `nth(offset)`, and most operations log the span
    through its `Debug` impl.  Input is taken to be ASCII. */
module NewSpan {
  import opened Common

  /** The shared source behind an `Rc`; `id` stands for pointer identity. */
  datatype Source = Source(id: nat, name: string, input: string, lines: seq<string>)

  datatype Span = Span(source: Source, offset: nat, len: nat)

  ghost predicate ValidSpan(sp: Span)
  {
    sp.offset + sp.len <= |sp.source.input|
  }

  function Slice(sp: Span): (r: string)
    requires ValidSpan(sp)
    ensures |r| == sp.len
    ensures forall k :: 0 <= k < sp.len ==> r[k] == sp.source.input[sp.offset + k]
  {
    sp.source.input[sp.offset..sp.offset + sp.len]
  }

  /** `InputTake::take` (its logging aside). */
  function Take(sp: Span, count: nat): (r: Span)
  {
    Span(sp.source, sp.offset, count)
  }

  /** `InputTake::take_split`: (suffix, prefix); `len - count` must not
      underflow. */
  function TakeSplit(sp: Span, count: nat): (r: (Span, Span))
    requires count <= sp.len
  {
    (Span(sp.source, sp.offset + count, sp.len - count), Span(sp.source, sp.offset, count))
  }

  /** `Slice<RangeFrom>` */
  function SliceFrom(sp: Span, start: nat): (r: Span)
    requires start <= sp.len
  {
    Span(sp.source, sp.offset + start, sp.len - start)
  }

  predicate Eq(a: Span, b: Span)
  {
    a.source.id == b.source.id && a.offset == b.offset && a.len == b.len
  }

  lemma TakeIsPrefix(sp: Span, count: nat)
    requires ValidSpan(sp) && count <= sp.len
    ensures ValidSpan(Take(sp, count)) && Slice(Take(sp, count)) == Slice(sp)[..count]
    ensures Take(sp, count).offset == sp.offset && Take(sp, count).len == count
  {
  }

  /** The suffix starts where the prefix ends, and the texts reassemble. */
  lemma TakeSplitAdjacent(sp: Span, count: nat)
    requires ValidSpan(sp) && count <= sp.len
    ensures var (suffix, prefix) := TakeSplit(sp, count);
      ValidSpan(suffix) && ValidSpan(prefix)
      && prefix.offset + prefix.len == suffix.offset
      && prefix.len + suffix.len == sp.len
      && Slice(prefix) + Slice(suffix) == Slice(sp)
  {
    var (suffix, prefix) := TakeSplit(sp, count);
    assert Slice(prefix) + Slice(suffix) == Slice(sp);
  }

  lemma SliceFromIsSuffix(sp: Span, start: nat)
    requires ValidSpan(sp) && start <= sp.len
    ensures ValidSpan(SliceFrom(sp, start)) && Slice(SliceFrom(sp, start)) == Slice(sp)[start..]
    ensures SliceFrom(sp, start).offset == sp.offset + start
  {
  }

  lemma EqIsIdentity(a: Span, b: Span)
    requires a.source == b.source && ValidSpan(a) && ValidSpan(b)
    ensures Eq(a, b) <==> a == b
    ensures Eq(a, b) ==> Slice(a) == Slice(b)
  {
  }

  datatype CompareResult = CmpOk | CmpError | CmpIncomplete

  /** `Compare::compare`, which also logs the span (see `DebugPreview`). */
  function Compare(sp: Span, t: string): (r: CompareResult)
    requires ValidSpan(sp)
    ensures r == CmpError <==> exists k :: 0 <= k < sp.len && k < |t| && Slice(sp)[k] != t[k]
    ensures r == CmpOk <==> Slice(sp)[..if sp.len < |t| then sp.len else |t|] == t
  {
    match FirstMismatch(Slice(sp), t)
    case Some(_) => CmpError
    case None => if sp.len >= |t| then CmpOk else CmpIncomplete
  }

  /** `Compare::compare_no_case` */
  function CompareNoCase(sp: Span, t: string): (r: CompareResult)
    requires ValidSpan(sp)
    ensures r == CmpError <==> exists k :: 0 <= k < sp.len && k < |t| && LowerChar(Slice(sp)[k]) != LowerChar(t[k])
    ensures r != CmpError ==> (r == CmpOk <==> sp.len >= |t|)
  {
    match FirstMismatch(Lower(Slice(sp)), Lower(t))
    case Some(_) => CmpError
    case None => if sp.len >= |t| then CmpOk else CmpIncomplete
  }

  /** The text preview printed by `Debug` as written: `&slice()[..12]`, which
      panics (None here) whenever the span is shorter than 12 bytes. */
  function DebugPreviewAsWritten(sp: Span): (r: Option<string>)
    requires ValidSpan(sp)
    ensures r.Some? <==> sp.len >= 12
    ensures r.Some? ==> |r.value| == 12 && r.value <= Slice(sp)
  {
    if sp.len >= 12 then Some(Slice(sp)[..12]) else None
  }

  /** `Compare` logs its span, so comparing a short tail of the input panics:
      "}\n" left at the end of a schema is enough. */
  lemma DebugPanicsOnShortTail()
    ensures var src := Source(0, "<memory>", "struct A {}\n", ["struct A {}"]);
      ValidSpan(Span(src, 10, 2)) && DebugPreviewAsWritten(Span(src, 10, 2)) == None
  {
  }

  /** The preview the format string evidently intends: at most 12 bytes. */
  function DebugPreview(sp: Span): (r: string)
    requires ValidSpan(sp)
    ensures |r| == if sp.len < 12 then sp.len else 12
    ensures r <= Slice(sp)
    ensures DebugPreviewAsWritten(sp).Some? ==> DebugPreviewAsWritten(sp) == Some(r)
  {
    Slice(sp)[..if sp.len < 12 then sp.len else 12]
  }

  /** `SpanIter` / `SpanIterElem`: `nth(offset)` of the span's chars, then
      `offset += 1`. */
  class CharIter {
    const span: Span
    var offset: nat

    ghost predicate Valid()
      reads this
    {
      ValidSpan(span) && offset <= span.len
    }

    constructor (sp: Span)
      requires ValidSpan(sp)
      ensures Valid() && span == sp && offset == 0
    {
      span := sp;
      offset := 0;
    }

    /** `SpanIter::next`: `char_indices().nth(offset)`. */
    method NextIndexed() returns (r: Option<(nat, char)>)
      requires Valid()
      modifies this
      ensures Valid()
      ensures old(offset) < span.len ==> r == Some((old(offset), Slice(span)[old(offset)])) && offset == old(offset) + 1
      ensures old(offset) >= span.len ==> r == None && offset == old(offset)
    {
      if offset < span.len {
        r := Some((offset, Slice(span)[offset]));
        offset := offset + 1;
      } else {
        r := None;
      }
    }

    /** `SpanIterElem::next`: `chars().nth(offset)`. */
    method Next() returns (r: Option<char>)
      requires Valid()
      modifies this
      ensures Valid()
      ensures old(offset) < span.len ==> r == Some(Slice(span)[old(offset)]) && offset == old(offset) + 1
      ensures old(offset) >= span.len ==> r == None && offset == old(offset)
    {
      if offset < span.len {
        r := Some(Slice(span)[offset]);
        offset := offset + 1;
      } else {
        r := None;
      }
    }
  }

  /** Draining `char_indices()` yields every (index, char) pair in order. */
  method CharIndices(sp: Span) returns (pairs: seq<(nat, char)>)
    requires ValidSpan(sp)
    ensures |pairs| == sp.len
    ensures forall k :: 0 <= k < |pairs| ==> pairs[k] == (k, Slice(sp)[k])
  {
    var it := new CharIter(sp);
    pairs := [];
    while true
      invariant it.Valid() && it.span == sp && |pairs| == it.offset
      invariant forall k :: 0 <= k < |pairs| ==> pairs[k] == (k, Slice(sp)[k])
      decreases sp.len - it.offset
    {
      var ic := it.NextIndexed();
      if ic.None? {
        return;
      }
      pairs := pairs + [ic.value];
    }
  }

  /** `InputIter::position` */
  method FindChar(sp: Span, p: char -> bool) returns (r: Option<nat>)
    requires ValidSpan(sp)
    ensures r.Some? ==> (r.value < sp.len && p(Slice(sp)[r.value])
      && forall k :: 0 <= k < r.value ==> !p(Slice(sp)[k]))
    ensures r.None? ==> forall k :: 0 <= k < sp.len ==> !p(Slice(sp)[k])
  {
    var it := new CharIter(sp);
    while true
      invariant it.Valid() && it.span == sp
      invariant forall k :: 0 <= k < it.offset ==> !p(Slice(sp)[k])
      decreases sp.len - it.offset
    {
      var ic := it.NextIndexed();
      match ic
      case None =>
        return None;
      case Some((o, c)) =>
        if p(c) {
          return Some(o);
        }
    }
  }

  /** `InputIter::slice_index` */
  method SliceIndex(sp: Span, count: nat) returns (r: Option<nat>)
    requires ValidSpan(sp)
    ensures r == if count <= sp.len then Some(count) else None
  {
    var cnt := 0;
    var it := new CharIter(sp);
    while true
      invariant it.Valid() && it.span == sp
      invariant cnt == it.offset && cnt <= count
      decreases sp.len - it.offset
    {
      var ic := it.NextIndexed();
      if ic.None? {
        break;
      }
      if cnt == count {
        return Some(ic.value.0);
      }
      cnt := cnt + 1;
    }
    if cnt == count {
      return Some(sp.len);
    }
    return None;
  }

  /** `FindSubstring::find_substring` */
  function FindSubstring(sp: Span, sub: string): (r: Option<nat>)
    requires ValidSpan(sp)
    ensures r.Some? ==> OccursAt(Slice(sp), sub, r.value)
    ensures r.Some? ==> forall k: nat :: k < r.value ==> !OccursAt(Slice(sp), sub, k)
    ensures r.None? ==> forall k: nat :: !OccursAt(Slice(sp), sub, k)
  {
    FindFrom(Slice(sp), sub, 0)
  }
}
