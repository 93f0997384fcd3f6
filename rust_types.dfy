/** Schema types as Rust types.

    Two mappings: the flat one shared word for word by
    lavish/src/codegen/rust/mod.rs and src/codegen/rust/mod.rs (a user type
    is written "super::" + its text, unresolved), and the stack-aware one of
    src/codegen/rust/ir/types.rs (a user type is looked up from the stack
    it is anchored at).  All three match on the base-type names of
    lavish/src/ast.rs (`Int32` … `Bytes`), so both map the types of that
    tree. */
module RustTypes {
  import opened Common
  import opened LavishSpan
  import opened LavishAst
  import Anchored
  import opened RustPaths

  /** Every span in the type can be sliced. */
  ghost predicate ValidSpans(t: Type)
  {
    ValidSpan(t.span) &&
    match t.kind
    case Array(inner) => ValidSpans(inner)
    case Opt(inner) => ValidSpans(inner)
    case Map(keys, values) => ValidSpans(keys) && ValidSpans(values)
    case _ => true
  }

  /** The base-type names shared by both mappings; only `Timestamp`
      differs. */
  function BaseName(b: BaseType, timestamp: string): string
  {
    match b
    case Bool => "bool"
    case Int32 => "i32"
    case Int64 => "i64"
    case UInt32 => "u32"
    case UInt64 => "u64"
    case Float32 => "f32"
    case Float64 => "f64"
    case String => "String"
    case Bytes => "Vec<u8>"
    case Timestamp => timestamp
  }

  const FlatTimestamp: string := "::lavish_rpc::DateTime"

  /** The `Display for RustType` of both `mod.rs` files. */
  function FlatRustType(t: Type): string
    requires ValidSpans(t)
  {
    match t.kind
    case Base(b) => BaseName(b, FlatTimestamp)
    case Map(keys, values) => "::std::collections::HashMap<" + FlatRustType(keys) + ", " + FlatRustType(values) + ">"
    case Opt(inner) => "Option<" + FlatRustType(inner) + ">"
    case Array(inner) => "Vec<" + FlatRustType(inner) + ">"
    case User => "super::" + TypeText(t)
  }

  /** The flat mapping does not resolve a user type: it always reads the
      type's text one module up, whatever module declares it. */
  lemma FlatUserClimbsOnce(t: Type)
    requires ValidSpans(t) && t.kind.User? && !StartsUp(TypeText(t))
    ensures Ascent(FlatRustType(t)) == (1, TypeText(t))
  {
  }

  /** Distinct base types become distinct Rust types, in either mapping
      (the timestamp's name is none of the other nine). */
  lemma BaseNamesDistinct(a: BaseType, b: BaseType, timestamp: string)
    requires timestamp in {FlatTimestamp, Chrono + "::DateTime"}
    requires a != b
    ensures BaseName(a, timestamp) != BaseName(b, timestamp)
  {
    if a == Timestamp || b == Timestamp {
      assert timestamp[0] == ':';
    }
  }

  function CountChar(s: string, c: char): nat
  {
    if s == [] then 0 else CountChar(s[..|s| - 1], c) + (if s[|s| - 1] == c then 1 else 0)
  }

  lemma {:induction false} CountAppend(a: string, b: string, c: char)
    ensures CountChar(a + b, c) == CountChar(a, c) + CountChar(b, c)
    decreases |b|
  {
    if b == [] {
      assert a + b == a;
    } else {
      assert (a + b)[..|a + b| - 1] == a + b[..|b| - 1];
      CountAppend(a, b[..|b| - 1], c);
    }
  }

  lemma CountAppend3(a: string, b: string, d: string, c: char)
    ensures CountChar(a + b + d, c) == CountChar(a, c) + CountChar(b, c) + CountChar(d, c)
  {
    CountAppend(a + b, d, c);
    CountAppend(a, b, c);
  }

  /** As many '<' as '>' in `s`. */
  predicate Balanced(s: string)
  {
    CountChar(s, '<') == CountChar(s, '>')
  }

  /** Every user type's text is free of angle brackets. */
  predicate PlainUserTexts(t: Type)
    requires ValidSpans(t)
  {
    match t.kind
    case User => '<' !in TypeText(t) && '>' !in TypeText(t)
    case Array(inner) => PlainUserTexts(inner)
    case Opt(inner) => PlainUserTexts(inner)
    case Map(keys, values) => PlainUserTexts(keys) && PlainUserTexts(values)
    case Base(_) => true
  }

  lemma {:induction false} NoCharCount(s: string, c: char)
    requires c !in s
    ensures CountChar(s, c) == 0
  {
    if s != [] {
      assert forall k :: 0 <= k < |s| - 1 ==> s[..|s| - 1][k] == s[k];
      NoCharCount(s[..|s| - 1], c);
    }
  }

  /** A wrapper "W<" + x + ">" adds one bracket of each kind to x's. */
  lemma WrapBalanced(w: string, x: string)
    requires '<' !in w && '>' !in w && Balanced(x)
    ensures Balanced(w + "<" + x + ">")
  {
    NoCharCount(w, '<');
    NoCharCount(w, '>');
    CountAppend3(w, "<", x, '<');
    CountAppend3(w, "<", x, '>');
    CountAppend(w + "<" + x, ">", '<');
    CountAppend(w + "<" + x, ">", '>');
    assert CountChar("<", '<') == 1 by { assert "<"[..0] == ""; }
    assert CountChar("<", '>') == 0 by { assert "<"[..0] == ""; }
    assert CountChar(">", '>') == 1 by { assert ">"[..0] == ""; }
    assert CountChar(">", '<') == 0 by { assert ">"[..0] == ""; }
  }

  lemma BaseBalanced(b: BaseType, timestamp: string)
    requires '<' !in timestamp && '>' !in timestamp
    ensures Balanced(BaseName(b, timestamp))
  {
    match b
    case Bytes =>
      WrapBalanced("Vec", "u8");
      NoCharCount("u8", '<');
      NoCharCount("u8", '>');
      assert "Vec" + "<" + "u8" + ">" == "Vec<u8>";
    case Timestamp =>
      NoCharCount(timestamp, '<');
      NoCharCount(timestamp, '>');
    case _ =>
      var n := BaseName(b, timestamp);
      assert n in {"bool", "i32", "i64", "u32", "u64", "f32", "f64", "String"};
      NoCharCount(n, '<');
      NoCharCount(n, '>');
  }

  /** Every generic the flat mapping opens it closes: the Rust type has as
      many '<' as '>' whenever the user types' texts have none. */
  lemma {:induction false} FlatBalanced(t: Type)
    requires ValidSpans(t) && PlainUserTexts(t)
    ensures Balanced(FlatRustType(t))
  {
    match t.kind
    case Base(b) => BaseBalanced(b, FlatTimestamp);
    case Opt(inner) =>
      FlatBalanced(inner);
      WrapBalanced("Option", FlatRustType(inner));
      assert "Option" + "<" == "Option<";
    case Array(inner) =>
      FlatBalanced(inner);
      WrapBalanced("Vec", FlatRustType(inner));
      assert "Vec" + "<" == "Vec<";
    case Map(keys, values) =>
      FlatBalanced(keys);
      FlatBalanced(values);
      HashMapBalanced(FlatRustType(keys), FlatRustType(values));
    case User => UserBalanced(TypeText(t));
  }

  const FlatHashMap: string := "::std::collections::HashMap"

  lemma HashMapBalanced(k: string, v: string)
    requires Balanced(k) && Balanced(v)
    ensures Balanced("::std::collections::HashMap<" + k + ", " + v + ">")
  {
    assert '<' !in FlatHashMap && '>' !in FlatHashMap;
    PairBalanced(FlatHashMap, k, v);
    assert FlatHashMap + "<" == "::std::collections::HashMap<";
  }

  lemma UserBalanced(text: string)
    requires '<' !in text && '>' !in text
    ensures Balanced("super::" + text)
  {
    assert '<' !in "super::" + text && '>' !in "super::" + text;
    NoCharCount("super::" + text, '<');
    NoCharCount("super::" + text, '>');
  }

  /** "W<" + k + ", " + v + ">" is balanced when k and v are. */
  lemma PairBalanced(w: string, k: string, v: string)
    requires '<' !in w && '>' !in w && Balanced(k) && Balanced(v)
    ensures Balanced(w + "<" + k + ", " + v + ">")
  {
    var inner := k + ", " + v;
    CountAppend3(k, ", ", v, '<');
    CountAppend3(k, ", ", v, '>');
    NoCharCount(", ", '<');
    NoCharCount(", ", '>');
    WrapBalanced(w, inner);
    assert w + "<" + inner + ">" == w + "<" + k + ", " + v + ">";
  }

  // src/codegen/rust/ir/types.rs

  /** `ast::RelativePath`: climb `up` modules, then descend through `down`. */
  datatype RelativePath = RelativePath(up: nat, down: seq<string>)

  function Supers(n: nat): (r: seq<string>)
    ensures |r| == n && forall k :: 0 <= k < n ==> r[k] == "super"
  {
    if n == 0 then [] else Supers(n - 1) + ["super"]
  }

  /** `GeneratesRust for RelativePath`: "super" `up` times, then the `down`
      segments, all joined by "::". */
  function RelativePathText(p: RelativePath): string
  {
    Join(Supers(p.up) + p.down, "::")
  }

  lemma {:induction false} SupersJoin(n: nat, down: seq<string>)
    requires down != []
    ensures Join(Supers(n) + down, "::") == Repeat(Up, n) + Join(down, "::")
  {
    if n > 0 {
      var rest := Supers(n - 1) + down;
      SupersCons(n);
      assert Supers(n) + down == ["super"] + rest;
      assert (["super"] + rest)[1..] == rest;
      SupersJoin(n - 1, down);
      assert Repeat(Up, n) == Up + Repeat(Up, n - 1);
      calc {
        Join(Supers(n) + down, "::");
        "super" + "::" + Join(rest, "::");
        Up + (Repeat(Up, n - 1) + Join(down, "::"));
        { AppendAssoc(Up, Repeat(Up, n - 1), Join(down, "::")); }
        Up + Repeat(Up, n - 1) + Join(down, "::");
        Repeat(Up, n) + Join(down, "::");
      }
    } else {
      assert Supers(n) + down == down;
    }
  }

  lemma {:induction false} SupersCons(n: nat)
    requires n > 0
    ensures Supers(n) == ["super"] + Supers(n - 1)
  {
    if n > 1 {
      SupersCons(n - 1);
    }
  }

  /** A rendered path with somewhere to descend to reads back as the same
      climb and the same descent: the leading "super::" count is `up`. */
  lemma RelativePathAscent(p: RelativePath)
    requires p.down != [] && !StartsUp(Join(p.down, "::"))
    ensures RelativePathText(p) == Repeat(Up, p.up) + Join(p.down, "::")
    ensures Ascent(RelativePathText(p)) == (p.up, Join(p.down, "::"))
  {
    SupersJoin(p.up, p.down);
    AscentRepeat(p.up, Join(p.down, "::"));
  }

  /** `Base::generate_rust` of types.rs: the timestamp through the chrono
      module re-exported by the runtime. */
  const StackTimestamp: string := Chrono + "::DateTime"

  /** The stack-aware `Display for RustType`: `lookup(stack, down)` stands for
      `stack.lookup_struct(Relaxed, down)`, which is not part of this model;
      `None` is the `panic!` on an unresolved name.  Inner types are rendered
      with the stack of the outer type. */
  function StackRustType(t: Type, st: Anchored.Stack, lookup: (Anchored.Stack, seq<string>) -> Option<RelativePath>): Option<string>
    requires ValidSpans(t)
  {
    match t.kind
    case Base(b) => Some(BaseName(b, StackTimestamp))
    case Map(keys, values) =>
      var k := StackRustType(keys, st, lookup);
      var v := StackRustType(values, st, lookup);
      if k.None? || v.None? then None
      else Some(Collections + "::HashMap<" + k.value + ", " + v.value + ">")
    case Opt(inner) =>
      var i := StackRustType(inner, st, lookup);
      if i.None? then None else Some("Option<" + i.value + ">")
    case Array(inner) =>
      var i := StackRustType(inner, st, lookup);
      if i.None? then None else Some("Vec<" + i.value + ">")
    case User =>
      var found := lookup(st, Split(TypeText(t), '.'));
      if found.None? then None else Some(RelativePathText(found.value))
  }

  /** Every user type in `t` resolves from `st`. */
  predicate Resolves(t: Type, st: Anchored.Stack, lookup: (Anchored.Stack, seq<string>) -> Option<RelativePath>)
    requires ValidSpans(t)
  {
    match t.kind
    case User => lookup(st, Split(TypeText(t), '.')).Some?
    case Array(inner) => Resolves(inner, st, lookup)
    case Opt(inner) => Resolves(inner, st, lookup)
    case Map(keys, values) => Resolves(keys, st, lookup) && Resolves(values, st, lookup)
    case Base(_) => true
  }

  /** The mapping fails (panics) exactly when some user type inside does not
      resolve. */
  lemma {:induction false} StackRustTypeTotal(t: Type, st: Anchored.Stack, lookup: (Anchored.Stack, seq<string>) -> Option<RelativePath>)
    requires ValidSpans(t)
    ensures StackRustType(t, st, lookup).Some? <==> Resolves(t, st, lookup)
  {
    match t.kind
    case Map(keys, values) =>
      StackRustTypeTotal(keys, st, lookup);
      StackRustTypeTotal(values, st, lookup);
    case Opt(inner) => StackRustTypeTotal(inner, st, lookup);
    case Array(inner) => StackRustTypeTotal(inner, st, lookup);
    case _ =>
  }

  /** No user type and no timestamp anywhere in the type. */
  predicate NoUserNoTimestamp(t: Type)
  {
    match t.kind
    case User => false
    case Base(b) => b != Timestamp
    case Array(inner) => NoUserNoTimestamp(inner)
    case Opt(inner) => NoUserNoTimestamp(inner)
    case Map(keys, values) => NoUserNoTimestamp(keys) && NoUserNoTimestamp(values)
  }

  /** The two mappings differ only on user types and timestamps: elsewhere
      the stack-aware one always succeeds with the flat one's text. */
  lemma {:induction false} MappingsAgree(t: Type, st: Anchored.Stack, lookup: (Anchored.Stack, seq<string>) -> Option<RelativePath>)
    requires ValidSpans(t) && NoUserNoTimestamp(t)
    ensures StackRustType(t, st, lookup) == Some(FlatRustType(t))
  {
    match t.kind
    case Map(keys, values) =>
      MappingsAgree(keys, st, lookup);
      MappingsAgree(values, st, lookup);
      assert Collections + "::HashMap<" == "::std::collections::HashMap<";
    case Opt(inner) => MappingsAgree(inner, st, lookup);
    case Array(inner) => MappingsAgree(inner, st, lookup);
    case Base(b) =>
  }
}
