/** The character-level pieces of nom that both schema grammars
    (lavish/src/parser/mod.rs and src/parser/mod.rs) are built from, over the
    source text and an offset into it: the three outcomes of a parser, `cut`
    with `context`, `take_while`, `sp`, `tag` and `char` between whitespace,
    and comment lines, whose definition the two grammars share word for word.
    Each error entry is the offset it points at and its kind. */
module NomChars {
  import opened Common

  datatype Res<T> = Done(pos: nat, value: T) | Error(errs: seq<ErrorEntry>) | Failure(errs: seq<ErrorEntry>)

  /** An unsuccessful outcome, passed on as it is (`?`). */
  function Propagate<T, U>(r: Res<T>): (q: Res<U>)
    requires !r.Done?
  {
    if r.Error? then Error(r.errs) else Failure(r.errs)
  }

  /** `context(ctx, cut(f))`: any error becomes a failure, labelled with the
      context at the offset where `f` started. */
  function Commit<T>(r: Res<T>, at: nat, ctx: string): (q: Res<T>)
  {
    if r.Done? then r else Failure(r.errs + [(at, ContextKind(ctx))])
  }

  // Characters

  datatype CharClass = Space | LineSpace | IdChar | LitChar | UserChar | NotNewline

  predicate IsIdChar(c: char)
  {
    ('a' <= c <= 'z') || ('A' <= c <= 'Z') || ('0' <= c <= '9') || c == '_'
  }

  predicate InClass(c: char, cl: CharClass)
  {
    match cl
    case Space => c == ' ' || c == '\t' || c == '\r' || c == '\n'
    case LineSpace => c == ' ' || c == '\t'
    case IdChar => IsIdChar(c)
    case LitChar => IsIdChar(c) || c == '-' || c == '.' || c == '/'
    case UserChar => IsIdChar(c) || c == '.'
    case NotNewline => c != '\n'
  }

  /** `take_while`: the end of the longest run of `cl` characters from `p`. */
  function TakeWhile(s: string, p: nat, cl: CharClass): (q: nat)
    requires p <= |s|
    ensures p <= q <= |s|
    ensures q < |s| ==> !InClass(s[q], cl)
    decreases |s| - p
  {
    if p < |s| && InClass(s[p], cl) then TakeWhile(s, p + 1, cl) else p
  }

  /** Every character `take_while` passes over is of the class. */
  lemma {:induction false} TakeWhileAll(s: string, p: nat, cl: CharClass)
    requires p <= |s|
    ensures forall k :: p <= k < TakeWhile(s, p, cl) ==> InClass(s[k], cl)
    decreases |s| - p
  {
    if p < |s| && InClass(s[p], cl) {
      TakeWhileAll(s, p + 1, cl);
    }
  }

  /** `sp`: spaces, tabs, carriage returns and newlines. */
  function Sp(s: string, p: nat): (q: nat)
    requires p <= |s|
    ensures p <= q <= |s|
  {
    TakeWhile(s, p, Space)
  }

  /** `t` stands in `s` at `p`, compared character by character. */
  function MatchesAt(s: string, p: nat, t: string): (r: bool)
    requires p <= |s|
    ensures r ==> p + |t| <= |s|
    decreases |t|
  {
    |t| == 0 || (p < |s| && s[p] == t[0] && MatchesAt(s, p + 1, t[1..]))
  }

  /** `spaced(tag(t))`: the offset after the tag and the whitespace around
      it; the value is where the tag starts. */
  function SpacedTag(s: string, p: nat, t: string): (r: Res<nat>)
    requires p <= |s|
    ensures !r.Failure?
    ensures r.Done? ==> p <= r.value && r.value + |t| <= r.pos <= |s|
  {
    var a := Sp(s, p);
    if MatchesAt(s, a, t) then Done(Sp(s, a + |t|), a) else Error([(a, NomKind("Tag"))])
  }

  /** `spaced(char(c))` */
  function SpacedChar(s: string, p: nat, c: char): (r: Res<nat>)
    requires p <= |s|
    ensures !r.Failure?
    ensures r.Done? ==> p <= r.value < r.pos <= |s| && s[r.value] == c
  {
    var a := Sp(s, p);
    if a < |s| && s[a] == c then Done(Sp(s, a + 1), a) else Error([(a, CharKind(c))])
  }

  // Comments

  /** `comment_line`: after whitespace, "//", then spaces and tabs; the text
      runs up to, not including, the next newline, which must exist. */
  function CommentLine(s: string, p: nat): (r: Res<string>)
    requires p <= |s|
    ensures !r.Failure?
    ensures r.Done? ==> p + 2 <= r.pos < |s| && s[r.pos] == '\n'
  {
    var a := Sp(s, p);
    if !MatchesAt(s, a, "//") then Error([(a, NomKind("Tag"))])
    else
      var b := TakeWhile(s, a + 2, LineSpace);
      var n := TakeWhile(s, b, NotNewline);
      if n == |s| then Error([(b, NomKind("TakeUntil"))]) else Done(n, s[b..n])
  }

  /** `many0(spaced(comment_line))`: where the last comment line and the
      whitespace after it end. */
  function SpacedCommentLines(s: string, p: nat): (q: nat)
    requires p <= |s|
    ensures p <= q <= |s|
    ensures !CommentLine(s, Sp(s, q)).Done?
    decreases |s| - p
  {
    var l := CommentLine(s, Sp(s, p));
    if l.Done? then SpacedCommentLines(s, Sp(s, l.pos)) else p
  }

  /** The end of `spaced(many0(spaced(comment_line)))`: what may follow the
      last directive or item. */
  function Trailer(s: string, p: nat): (q: nat)
    requires p <= |s|
    ensures p <= q <= |s|
  {
    Sp(s, SpacedCommentLines(s, Sp(s, p)))
  }

  /** What `all_consuming` stops at after the last item: neither
      whitespace nor the start of a comment line. */
  predicate Leftover(s: string, e: nat)
  {
    e < |s| && !InClass(s[e], Space) && !CommentLine(s, e).Done?
  }

  /** A run of `cl` characters ending before a non-`cl` character. */
  lemma {:induction false} TakeWhileRun(s: string, p: nat, q: nat, cl: CharClass)
    requires p <= q <= |s|
    requires forall k :: p <= k < q ==> InClass(s[k], cl)
    requires q == |s| || !InClass(s[q], cl)
    ensures TakeWhile(s, p, cl) == q
    decreases q - p
  {
    if p < q {
      TakeWhileRun(s, p + 1, q, cl);
    }
  }

  /** No whitespace: `sp` reads nothing. */
  lemma SpNone(s: string, p: nat)
    requires p <= |s| && (p == |s| || !InClass(s[p], Space))
    ensures Sp(s, p) == p
  {
  }

  /** `sp` stops where it stopped before. */
  lemma SpAgain(s: string, p: nat)
    requires p <= |s|
    ensures Sp(s, Sp(s, p)) == Sp(s, p)
  {
    SpNone(s, Sp(s, p));
  }

  /** `filter_map(|x| x)`: the values, without the `None`s. */
  function Somes<T>(xs: seq<Option<T>>): (r: seq<T>)
  {
    if xs == [] then []
    else (if xs[0].Some? then [xs[0].value] else []) + Somes(xs[1..])
  }

  /** The values kept are exactly those present, in order of appearance. */
  lemma {:induction false} SomesKeeps<T>(xs: seq<Option<T>>, x: T)
    ensures x in Somes(xs) <==> Some(x) in xs
  {
    if xs != [] {
      SomesKeeps(xs[1..], x);
      assert xs == [xs[0]] + xs[1..];
    }
  }
}
