/** The naming rules shared word for word by the two generations' IR
    (lavish/src/codegen/rust/ir.rs and src/codegen/rust/ir.rs): namespace
    prefixes, a function's tokens and the names derived from them, and the
    names of a function's params and results structs. */
module IrNames {
  import opened Common

  /** The name the code generator gives the schema's top namespace. */
  const RootName: string := "<root>"

  /** `Namespace::new`'s prefix: nothing at the root, otherwise the
      enclosing prefix, the namespace's name and a dot. */
  function NsPrefix(prefix: string, name: string): string
  {
    if name == RootName then "" else prefix + name + "."
  }

  predicate StartsWith(s: string, p: string)
  {
    |p| <= |s| && s[..|p|] == p
  }

  /** A text under a child's prefix is under the parent's prefix too. */
  lemma ChildPrefix(s: string, prefix: string, name: string)
    requires name != RootName && StartsWith(s, NsPrefix(prefix, name))
    ensures StartsWith(s, prefix)
  {
    var q := name + ".";
    assert NsPrefix(prefix, name) == prefix + q;
    assert s[..|prefix|] == (prefix + q)[..|prefix|];
  }

  /** `Fun::new`: the full name `prefix + name` split on '.'. */
  function Tokens(fullName: string): (r: seq<string>)
    ensures |r| >= 1 && forall k :: 0 <= k < |r| ==> '.' !in r[k]
  {
    Split(fullName, '.')
  }

  /** `rpc_name`: the tokens joined with "." */
  function RpcName(tokens: seq<string>): string
  {
    Join(tokens, ".")
  }

  /** `qualified_name`: the tokens joined with "::" */
  function QualifiedName(tokens: seq<string>): string
  {
    Join(tokens, "::")
  }

  /** `variant`: the rpc name with "." replaced by "__", lower-cased. */
  function Variant(tokens: seq<string>): string
  {
    Lower(Replace(RpcName(tokens), ".", "__"))
  }

  /** The rpc name of a function is its full name: splitting on '.' and
      joining with '.' loses nothing. */
  lemma RpcNameIsFullName(fullName: string)
    ensures RpcName(Tokens(fullName)) == fullName
  {
    SplitJoin(fullName, '.');
  }

  /** Replacing a character skips over a prefix that does not hold it. */
  lemma {:induction false} ReplaceSkips(x: string, c: char, to: string, rest: string)
    requires c !in x
    ensures Replace(x + rest, [c], to) == x + Replace(rest, [c], to)
    decreases |x|
  {
    if x != "" {
      var s := x + rest;
      assert x[0] != c && s[0] == x[0];
      assert s[..1] == [x[0]] && s[1..] == x[1..] + rest;
      assert s[..|[c]|] != [c];
      assert Replace(s, [c], to) == [s[0]] + Replace(s[1..], [c], to);
      ReplaceSkips(x[1..], c, to, rest);
      var tail := Replace(rest, [c], to);
      assert x + tail == [x[0]] + (x[1..] + tail);
    } else {
      assert x + rest == rest;
    }
  }

  /** Replacing the separator of a join of separator-free pieces is joining
      them with the replacement. */
  lemma {:induction false} ReplaceJoin(items: seq<string>, c: char, to: string)
    requires forall k :: 0 <= k < |items| ==> c !in items[k]
    ensures Replace(Join(items, [c]), [c], to) == Join(items, to)
    decreases |items|
  {
    if |items| == 1 {
      assert Replace(items[0] + "", [c], to) == items[0] + Replace("", [c], to) by {
        ReplaceSkips(items[0], c, to, "");
      }
      assert items[0] + "" == items[0];
    } else if |items| > 1 {
      var rest := Join(items[1..], [c]);
      ReplaceSkips(items[0], c, to, [c] + rest);
      assert items[0] + [c] + rest == items[0] + ([c] + rest);
      var s := [c] + rest;
      assert s[..1] == [c] && s[1..] == rest;
      ReplaceJoin(items[1..], c, to);
    }
  }

  /** The qualified name is the rpc name with every "." read as "::". */
  lemma QualifiedIsPath(fullName: string)
    ensures QualifiedName(Tokens(fullName)) == Replace(fullName, ".", "::")
  {
    RpcNameIsFullName(fullName);
    ReplaceJoin(Tokens(fullName), '.', "::");
  }

  /** The variant is the tokens joined with "__", lower-cased, and holds no
      dot. */
  lemma VariantOfTokens(fullName: string)
    ensures Variant(Tokens(fullName)) == Lower(Join(Tokens(fullName), "__"))
    ensures '.' !in Variant(Tokens(fullName))
  {
    var t := Tokens(fullName);
    ReplaceJoin(t, '.', "__");
    ReplaceCharRemoves(RpcName(t), '.', "__");
    var v := Variant(t);
    forall k | 0 <= k < |v|
      ensures v[k] != '.'
    {
      assert Replace(RpcName(t), ".", "__")[k] != '.';
    }
  }

  /** A replacement adds no character that neither the text nor the
      replacement holds. */
  lemma {:induction false} ReplaceKeepsOut(s: string, from: string, to: string, x: char)
    requires |from| > 0 && x !in s && x !in to
    ensures x !in Replace(s, from, to)
    decreases |s|
  {
    if |s| >= |from| {
      if s[..|from|] == from {
        ReplaceKeepsOut(s[|from|..], from, to, x);
      } else {
        ReplaceKeepsOut(s[1..], from, to, x);
      }
    }
  }

  /** A variant fits on one line when the rpc name does. */
  lemma VariantSingleLine(tokens: seq<string>)
    requires '\n' !in RpcName(tokens)
    ensures '\n' !in Variant(tokens)
  {
    var r := Replace(RpcName(tokens), ".", "__");
    ReplaceKeepsOut(RpcName(tokens), ".", "__", '\n');
    var v := Variant(tokens);
    forall k | 0 <= k < |v|
      ensures v[k] != '\n'
    {
      assert r[k] != '\n';
    }
  }

  // `FunStruct`

  datatype FunStructKind = ParamsStruct | ResultsStruct

  function KindName(k: FunStructKind): string
  {
    match k
    case ParamsStruct => "Params"
    case ResultsStruct => "Results"
  }

  /** A function's params or results struct: which one, the function's
      tokens, and how many fields it has. */
  datatype FunStruct = FunStruct(kind: FunStructKind, tokens: seq<string>, fieldCount: nat)

  /** `variant`: "Kind::variant" */
  function StructVariant(s: FunStruct): string
  {
    KindName(s.kind) + "::" + Variant(s.tokens)
  }

  /** `qualified_type`: "qname::Kind" */
  function QualifiedType(s: FunStruct): (r: string)
    ensures |r| > 2
  {
    QualifiedName(s.tokens) + "::" + KindName(s.kind)
  }

  /** `short_type`: the unit type exactly when the struct has no fields. */
  function ShortType(s: FunStruct): (r: string)
    ensures r == "()" <==> s.fieldCount == 0
    ensures s.fieldCount > 0 ==> r == QualifiedType(s)
  {
    if s.fieldCount == 0 then "()" else QualifiedType(s)
  }

  /** `empty_literal`: "<qualified_type> {}" */
  function EmptyLiteral(s: FunStruct): string
  {
    QualifiedType(s) + " {}"
  }

  /** The params and results structs of one function are different types
      with different variants. */
  lemma StructNamesDiffer(tokens: seq<string>, a: nat, b: nat)
    ensures QualifiedType(FunStruct(ParamsStruct, tokens, a)) != QualifiedType(FunStruct(ResultsStruct, tokens, b))
    ensures StructVariant(FunStruct(ParamsStruct, tokens, a)) != StructVariant(FunStruct(ResultsStruct, tokens, b))
  {
    var p, r := QualifiedType(FunStruct(ParamsStruct, tokens, a)), QualifiedType(FunStruct(ResultsStruct, tokens, b));
    assert |p| != |r|;
    assert StructVariant(FunStruct(ParamsStruct, tokens, a))[0] == 'P';
    assert StructVariant(FunStruct(ResultsStruct, tokens, b))[0] == 'R';
  }
}
