/** Shared value types and string helpers used by every other module:
    Option/Result, and the handful of `str` operations the compiler leans on
    (`repeat`, `join`, `split`, `replace`, `lines`, ASCII lower-casing and
    decimal formatting of counters). */
module Common {

  datatype Option<+T> = None | Some(value: T)

  datatype Result<+T, +E> = Ok(value: T) | Err(error: E)

  /** What a parser that cannot fail read: where it stopped and what it
      produced. */
  datatype Parsed<T> = Parsed(pos: nat, value: T)

  /** nom's `VerboseErrorKind`: a missing character, a context label, or a
      combinator's own error kind (by its name). */
  datatype ErrorKind = CharKind(c: char) | ContextKind(ctx: string) | NomKind(name: string)

  /** One entry of a `VerboseError`: the offset of the input it points at,
      and what. */
  type ErrorEntry = (nat, ErrorKind)

  /** `s.repeat(n)` */
  function Repeat(s: string, n: nat): (r: string)
    ensures |r| == |s| * n
  {
    if n == 0 then "" else s + Repeat(s, n - 1)
  }

  function Spaces(n: nat): (r: string)
    ensures |r| == n
  {
    seq(n, _ => ' ')
  }

  lemma {:induction false} RepeatSplit(s: string, a: nat, b: nat)
    ensures Repeat(s, a + b) == Repeat(s, a) + Repeat(s, b)
  {
    if a > 0 {
      RepeatSplit(s, a - 1, b);
      assert Repeat(s, a + b) == s + Repeat(s, (a - 1) + b);
      AppendAssoc(s, Repeat(s, a - 1), Repeat(s, b));
    } else {
      assert Repeat(s, a) == [];
    }
  }

  /** `items.join(sep)` */
  function Join(items: seq<string>, sep: string): (r: string)
  {
    if |items| == 0 then ""
    else if |items| == 1 then items[0]
    else items[0] + sep + Join(items[1..], sep)
  }

  lemma JoinAppend(items: seq<string>, x: string, sep: string)
    ensures Join(items + [x], sep) == if |items| == 0 then x else Join(items, sep) + sep + x
  {
    if |items| > 1 {
      assert (items + [x])[1..] == items[1..] + [x];
      JoinAppend(items[1..], x, sep);
    } else if |items| == 1 {
      assert (items + [x])[1..] == [x];
    }
  }

  function Concat(items: seq<string>): (r: string)
  {
    if |items| == 0 then "" else items[0] + Concat(items[1..])
  }

  lemma ConcatAppend(a: seq<string>, b: seq<string>)
    ensures Concat(a + b) == Concat(a) + Concat(b)
  {
    if |a| > 0 {
      assert (a + b)[1..] == a[1..] + b;
      ConcatAppend(a[1..], b);
    } else {
      assert a + b == b;
    }
  }

  /** Index of the first occurrence of `c` in `s`, if any. */
  function IndexOf(s: string, c: char): (r: Option<nat>)
    ensures r.Some? ==> r.value < |s| && s[r.value] == c && c !in s[..r.value]
    ensures r.None? ==> c !in s
  {
    if |s| == 0 then None
    else if s[0] == c then Some(0)
    else match IndexOf(s[1..], c)
      case None => None
      case Some(k) => Some(k + 1)
  }

  /** `s.split(c)`: the pieces between occurrences of `c`; never empty. */
  function Split(s: string, c: char): (r: seq<string>)
    ensures |r| >= 1
    ensures forall k :: 0 <= k < |r| ==> c !in r[k]
    decreases |s|
  {
    match IndexOf(s, c)
    case None => [s]
    case Some(k) => [s[..k]] + Split(s[k + 1..], c)
  }

  /** Joining the pieces of a split with the separator gives the input back. */
  lemma {:induction false} SplitJoin(s: string, c: char)
    ensures Join(Split(s, c), [c]) == s
    decreases |s|
  {
    match IndexOf(s, c)
    case None =>
    case Some(k) =>
      var head, tail := s[..k], s[k + 1..];
      SplitJoin(tail, c);
      var rest := Split(tail, c);
      assert Split(s, c) == [head] + rest;
      JoinCons(head, rest, [c]);
      CutAt(s, k);
  }

  /** A text is its part before `k`, its `k`-th character and the rest. */
  lemma CutAt<T>(s: seq<T>, k: nat)
    requires k < |s|
    ensures s == s[..k] + [s[k]] + s[k + 1..]
  {
  }

  /** The first separator after a separator-free head is the one right
      after it. */
  lemma IndexOfAfterHead(x: string, c: char, rest: string)
    requires c !in x
    ensures IndexOf(x + [c] + rest, c) == Some(|x|)
  {
    var s := x + [c] + rest;
    assert s[|x|] == c;
    assert forall k :: 0 <= k < |x| ==> s[k] == x[k];
  }

  /** Splitting a join of separator-free pieces gives the pieces back. */
  lemma {:induction false} JoinSplit(items: seq<string>, c: char)
    requires |items| >= 1
    requires forall k :: 0 <= k < |items| ==> c !in items[k]
    ensures Split(Join(items, [c]), c) == items
    decreases |items|
  {
    if |items| > 1 {
      var rest := Join(items[1..], [c]);
      var s := items[0] + [c] + rest;
      IndexOfAfterHead(items[0], c, rest);
      assert s[..|items[0]|] == items[0];
      assert s[|items[0]| + 1..] == rest;
      JoinSplit(items[1..], c);
      assert items == [items[0]] + items[1..];
    }
  }

  /** `s.replace(from, to)`: left-to-right, non-overlapping. */
  function Replace(s: string, from: string, to: string): (r: string)
    requires |from| > 0
    decreases |s|
  {
    if |s| < |from| then s
    else if s[..|from|] == from then to + Replace(s[|from|..], from, to)
    else [s[0]] + Replace(s[1..], from, to)
  }

  /** A replacement whose pattern no longer occurs in the output. */
  lemma {:induction false} ReplaceCharRemoves(s: string, c: char, to: string)
    requires c !in to
    ensures c !in Replace(s, [c], to)
    decreases |s|
  {
    if |s| >= 1 {
      ReplaceCharRemoves(s[1..], c, to);
    }
  }

  /** Removing a pattern never lengthens a string. */
  lemma {:induction false} ReplaceByEmptyShrinks(s: string, from: string)
    requires |from| > 0
    ensures |Replace(s, from, "")| <= |s|
    decreases |s|
  {
    if |s| >= |from| {
      if s[..|from|] == from {
        ReplaceByEmptyShrinks(s[|from|..], from);
      } else {
        ReplaceByEmptyShrinks(s[1..], from);
      }
    }
  }

  function StripCr(line: string): (r: string)
  {
    if |line| > 0 && line[|line| - 1] == '\r' then line[..|line| - 1] else line
  }

  /** `s.lines()`: split on '\n', no trailing empty line, one '\r' stripped
      from each line end. */
  function Lines(s: string): (r: seq<string>)
    ensures s == "" <==> r == []
    ensures forall k :: 0 <= k < |r| ==> '\n' !in r[k]
    decreases |s|
  {
    if s == "" then []
    else match IndexOf(s, '\n')
      case None => [StripCr(s)]
      case Some(k) => [StripCr(s[..k])] + Lines(s[k + 1..])
  }

  /** Joining a non-empty tail after a head puts one separator between them. */
  lemma JoinCons(x: string, rest: seq<string>, sep: string)
    requires rest != []
    ensures Join([x] + rest, sep) == x + sep + Join(rest, sep)
  {
    assert ([x] + rest)[1..] == rest;
  }

  /** Without carriage returns, the lines joined by '\n' give back the input,
      except for one final newline. */
  lemma {:induction false} LinesJoin(s: string)
    requires '\r' !in s
    ensures Join(Lines(s), "\n") == ChompNewline(s)
    decreases |s|
  {
    if s != "" && IndexOf(s, '\n').Some? {
      var k := IndexOf(s, '\n').value;
      var rest := s[k + 1..];
      assert s == s[..k] + "\n" + rest;
      assert '\r' !in rest;
      assert StripCr(s[..k]) == s[..k] by {
        assert '\r' !in s[..k];
      }
      assert Lines(s) == [s[..k]] + Lines(rest);
      LinesJoin(rest);
      if rest != "" {
        JoinCons(s[..k], Lines(rest), "\n");
        ChompAfterLine(s[..k], rest);
      }
    }
  }

  /** The input without one final newline. */
  function ChompNewline(s: string): string
  {
    if |s| > 0 && s[|s| - 1] == '\n' then s[..|s| - 1] else s
  }

  /** Removing a final newline only touches the last line. */
  lemma ChompAfterLine(x: string, rest: string)
    requires rest != ""
    ensures ChompNewline(x + "\n" + rest) == x + "\n" + ChompNewline(rest)
  {
    var s := x + "\n" + rest;
    assert s[|s| - 1] == rest[|rest| - 1];
    if rest[|rest| - 1] == '\n' {
      assert s[..|s| - 1] == x + "\n" + rest[..|rest| - 1];
    }
  }



  function LowerChar(c: char): (r: char)
  {
    if 'A' <= c <= 'Z' then (c as int + 32) as char else c
  }

  /** `to_lowercase` on ASCII text. */
  function Lower(s: string): (r: string)
    ensures |r| == |s|
    ensures forall k :: 0 <= k < |s| ==> r[k] == LowerChar(s[k])
  {
    if s == "" then "" else [LowerChar(s[0])] + Lower(s[1..])
  }

  function DigitChar(d: nat): (r: char)
    requires d < 10
  {
    "0123456789"[d]
  }

  /** Decimal rendering of a counter, as `format!("{}", n)` prints it. */
  function NatToString(n: nat): (r: string)
    ensures |r| >= 1
    decreases n
  {
    if n < 10 then [DigitChar(n)] else NatToString(n / 10) + [DigitChar(n % 10)]
  }

  function DigitValue(c: char): int
  {
    c as int - '0' as int
  }

  function ParseDecimal(s: string): (r: int)
  {
    if s == "" then 0 else 10 * ParseDecimal(s[..|s| - 1]) + DigitValue(s[|s| - 1])
  }

  /** Decimal rendering is injective: reading the digits back gives `n`. */
  lemma {:induction false} NatToStringParses(n: nat)
    ensures ParseDecimal(NatToString(n)) == n
    decreases n
  {
    if n >= 10 {
      NatToStringParses(n / 10);
      var s := NatToString(n);
      assert s[..|s| - 1] == NatToString(n / 10);
    }
  }

  /** `0..n` rendered and joined with ", ", as the offset tables print them. */
  function Range(n: nat): (r: seq<nat>)
    ensures |r| == n && forall k :: 0 <= k < n ==> r[k] == k
  {
    if n == 0 then [] else Range(n - 1) + [n - 1]
  }

  function MapToString(xs: seq<nat>): (r: seq<string>)
    ensures |r| == |xs| && forall k :: 0 <= k < |xs| ==> r[k] == NatToString(xs[k])
  {
    if xs == [] then [] else [NatToString(xs[0])] + MapToString(xs[1..])
  }

  /** Index of the first aligned pair that differs, as `zip(..).position(..)`. */
  function FirstMismatch(a: string, b: string): (r: Option<nat>)
    ensures r.Some? ==> (r.value < |a| && r.value < |b| && a[r.value] != b[r.value]
      && forall k :: 0 <= k < r.value ==> a[k] == b[k])
    ensures r.None? ==> forall k :: 0 <= k < |a| && k < |b| ==> a[k] == b[k]
  {
    if a == [] || b == [] then None
    else if a[0] != b[0] then Some(0)
    else match FirstMismatch(a[1..], b[1..])
      case None => None
      case Some(k) => Some(k + 1)
  }

  /** `sub` occurs in `s` at index `k`. */
  predicate OccursAt(s: string, sub: string, k: nat)
  {
    k + |sub| <= |s| && s[k..k + |sub|] == sub
  }

  function FindFrom(s: string, sub: string, from: nat): (r: Option<nat>)
    ensures r.Some? ==> from <= r.value && OccursAt(s, sub, r.value)
    ensures r.Some? ==> forall k: nat :: from <= k < r.value ==> !OccursAt(s, sub, k)
    ensures r.None? ==> forall k: nat :: from <= k ==> !OccursAt(s, sub, k)
    decreases |s| + 1 - from
  {
    if from + |sub| > |s| then None
    else if OccursAt(s, sub, from) then Some(from)
    else FindFrom(s, sub, from + 1)
  }

  /** Concatenation regroups freely. */
  lemma AppendAssoc<T>(a: seq<T>, b: seq<T>, c: seq<T>)
    ensures a + (b + c) == (a + b) + c
  {
  }

  lemma Assoc3<T>(a: seq<T>, b: seq<T>, c: seq<T>, d: seq<T>)
    ensures a + (b + c + d) == a + b + c + d
  {
    AppendAssoc(a, b + c, d);
    AppendAssoc(a, b, c);
  }

  lemma Assoc5<T>(a: seq<T>, b: seq<T>, c: seq<T>, d: seq<T>, e: seq<T>)
    ensures a + (b + c + d + e) == a + b + c + d + e
  {
    AppendAssoc(a, b + c + d, e);
    Assoc3(a, b, c, d);
  }

  /** A character in neither part is in neither of their concatenation. */
  lemma NotInAppend<T>(x: T, a: seq<T>, b: seq<T>)
    requires x !in a && x !in b
    ensures x !in a + b
  {
  }

  // Reversal

  /** A sequence in reverse order. */
  function Reversed<T>(s: seq<T>): (r: seq<T>)
    ensures |r| == |s| && forall k :: 0 <= k < |s| ==> r[k] == s[|s| - 1 - k]
  {
    if s == [] then [] else [s[|s| - 1]] + Reversed(s[..|s| - 1])
  }

  /** Reversing twice gives the sequence back. */
  lemma ReversedTwice<T>(s: seq<T>)
    ensures Reversed(Reversed(s)) == s
  {
    var r := Reversed(s);
    assert forall k :: 0 <= k < |s| ==> Reversed(r)[k] == r[|s| - 1 - k] == s[k];
  }
}
