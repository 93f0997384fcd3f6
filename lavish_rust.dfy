/** The single-file Rust generator of lavish/src/codegen/rust.rs: a
    context that collects the top-level namespaces of every module, merging
    those with the same name, and an output that writes every line at an
    explicit indentation.

    The file reads an `ast::Module` with a list of namespaces, which
    lavish/src/ast.rs does not declare; it is modelled here over that file's
    `NamespaceDecl`.  It formats field types with `Display`, which
    lavish/src/ast.rs does not implement for `Type`: the text is a
    parameter.  The heck case conversions are parameters too. */
module LavishRust {
  import opened Common
  import opened LavishAst
  import opened IndexMaps
  import IrNames
  import IrAtoms
  import RustLang
  import LavishOutput

  /** `ast::Module`, as this generator reads it. */
  datatype Module = Module(namespaces: seq<NamespaceDecl>)

  /** heck's `to_camel_case`, `to_mixed_case` and `to_snake_case`. */
  datatype Heck = Heck(camel: string -> string, mixed: string -> string, snake: string -> string)

  datatype Fun = Fun(decl: FunctionDecl, tokens: seq<string>)

  datatype Namespace = Namespace(decl: NamespaceDecl, children: Entries<Namespace>, funs: Entries<Fun>)

  // `Context::visit_ns`

  /** The prefix of the names inside a namespace. */
  function Prefix(prefix: string, decl: NamespaceDecl): string
  {
    prefix + decl.name.text + "."
  }

  /** The functions of a namespace, each under its full name. */
  function FunEntries(p: string, fs: seq<FunctionDecl>): (r: Entries<Fun>)
    ensures |r| == |fs|
    ensures forall k :: 0 <= k < |fs| ==> r[k] == (fs[k].name.text, Fun(fs[k], Split(p + fs[k].name.text, '.')))
  {
    if fs == [] then []
    else FunEntries(p, fs[..|fs| - 1]) + [(fs[|fs| - 1].name.text, Fun(fs[|fs| - 1], Split(p + fs[|fs| - 1].name.text, '.')))]
  }

  function ChildEntries(p: string, ds: seq<NamespaceDecl>): (r: Entries<Namespace>)
    ensures |r| == |ds|
    ensures forall k :: 0 <= k < |ds| ==> r[k] == (ds[k].name.text, NsOf(p, ds[k]))
    decreases ds
  {
    seq(|ds|, k requires 0 <= k < |ds| => (ds[k].name.text, NsOf(p, ds[k])))
  }

  /** What `visit_ns` makes of a fresh namespace: its functions inserted in
      order, then its children, each visited under the longer prefix. */
  function NsOf(prefix: string, decl: NamespaceDecl): Namespace
    decreases decl
  {
    var p := Prefix(prefix, decl);
    Namespace(decl, InsertAll(ChildEntries(p, decl.namespaces)), InsertAll(FunEntries(p, decl.functions)))
  }

  /** `visit_ns` on `Namespace::new(decl)`. */
  method VisitNs(prefix: string, decl: NamespaceDecl) returns (ns: Namespace)
    ensures ns == NsOf(prefix, decl)
    decreases decl
  {
    var p := prefix + decl.name.text + ".";
    ghost var fe := FunEntries(p, decl.functions);
    var funs: Entries<Fun> := [];
    for i := 0 to |decl.functions|
      invariant funs == InsertAll(fe[..i])
    {
      var fd := decl.functions[i];
      assert fe[i] == (fd.name.text, Fun(fd, Split(p + fd.name.text, '.')));
      InsertAllStep(fe, i);
      funs := Insert(funs, fd.name.text, Fun(fd, Split(p + fd.name.text, '.')));
    }
    assert fe[..|fe|] == fe;
    ghost var ce := ChildEntries(p, decl.namespaces);
    var children: Entries<Namespace> := [];
    for i := 0 to |decl.namespaces|
      invariant children == InsertAll(ce[..i])
    {
      var child := VisitNs(p, decl.namespaces[i]);
      assert ce[i] == (decl.namespaces[i].name.text, child);
      InsertAllStep(ce, i);
      children := Insert(children, decl.namespaces[i].name.text, child);
    }
    assert ce[..|ce|] == ce;
    assert p == Prefix(prefix, decl);
    ns := Namespace(decl, children, funs);
  }

  /** A function's tokens spell its full name: the namespace's prefix (the
      enclosing prefix, the namespace's name, a dot) and its own name. */
  lemma LocalFullName(prefix: string, decl: NamespaceDecl, f: Fun)
    requires f in Values(NsOf(prefix, decl).funs)
    ensures Join(f.tokens, ".") == Prefix(prefix, decl) + f.decl.name.text
  {
    var p := Prefix(prefix, decl);
    var fe := FunEntries(p, decl.functions);
    var k :| 0 <= k < |InsertAll(fe)| && InsertAll(fe)[k].1 == f;
    InsertAllValues(fe);
    assert InsertAll(fe)[k] in fe;
    var j :| 0 <= j < |fe| && fe[j] == InsertAll(fe)[k];
    SplitJoin(p + decl.functions[j].name.text, '.');
  }

  // `Namespace::merge`

  /** `merge`: every child of `b` is merged into the same-named child of
      `a`, or added after `a`'s children; every function of `b` is
      inserted, replacing `a`'s function of the same name. */
  function Merge(a: Namespace, b: Namespace): Namespace
    decreases b, |b.children| + 1
  {
    Namespace(a.decl, MergeChildren(a.children, b, |b.children|), MergeFuns(a.funs, b.funs))
  }

  /** The first `n` children of `b` merged into `m`. */
  function MergeChildren(m: Entries<Namespace>, b: Namespace, n: nat): Entries<Namespace>
    requires n <= |b.children|
    decreases b, n
  {
    if n == 0 then m else MergeInsert(MergeChildren(m, b, n - 1), b.children[n - 1].0, b.children[n - 1].1)
  }

  /** Merging into the entry under `k` if there is one, inserting otherwise:
      what `merge` does per child and `visit_toplevel_ns` per namespace. */
  function MergeInsert(m: Entries<Namespace>, k: string, v: Namespace): Entries<Namespace>
    decreases v, |v.children| + 2
  {
    match Get(m, k)
    case Some(sv) => Insert(m, k, Merge(sv, v))
    case None => Insert(m, k, v)
  }

  function MergeFuns(m: Entries<Fun>, rs: Entries<Fun>): Entries<Fun>
  {
    if rs == [] then m else Insert(MergeFuns(m, rs[..|rs| - 1]), rs[|rs| - 1].0, rs[|rs| - 1].1)
  }

  /** `merge`, in place: the two loops over the right-hand side's maps. */
  method MergeInto(a: Namespace, b: Namespace) returns (r: Namespace)
    ensures r == Merge(a, b)
    decreases b
  {
    var children := a.children;
    for i := 0 to |b.children|
      invariant children == MergeChildren(a.children, b, i)
    {
      var k, v := b.children[i].0, b.children[i].1;
      var found := Get(children, k);
      if found.Some? {
        var merged := MergeInto(found.value, v);
        children := Insert(children, k, merged);
      } else {
        children := Insert(children, k, v);
      }
      assert children == MergeInsert(MergeChildren(a.children, b, i), k, v);
    }
    var funs := a.funs;
    for i := 0 to |b.funs|
      invariant funs == MergeFuns(a.funs, b.funs[..i])
    {
      assert b.funs[..i + 1][..i] == b.funs[..i];
      funs := Insert(funs, b.funs[i].0, b.funs[i].1);
    }
    assert b.funs[..|b.funs|] == b.funs;
    r := Namespace(a.decl, children, funs);
  }

  /** Looking a name up after a merge: both sides' entries merged, or the
      one side that has it. */
  function Combine(x: Option<Namespace>, y: Option<Namespace>): Option<Namespace>
  {
    if x.Some? && y.Some? then Some(Merge(x.value, y.value)) else if y.Some? then y else x
  }

  lemma LastWithAbsent<V>(ps: Entries<V>, k: string)
    requires forall i :: 0 <= i < |ps| ==> ps[i].0 != k
    ensures LastWith(ps, k) == None
  {
    if ps != [] {
      LastWithAbsent(ps[..|ps| - 1], k);
    }
  }

  /** Functions: the right-hand side's win, the left-hand side's others
      stay. */
  lemma {:induction false} MergeFunsGet(m: Entries<Fun>, rs: Entries<Fun>)
    requires DistinctKeys(m)
    ensures DistinctKeys(MergeFuns(m, rs))
    ensures forall k :: Get(MergeFuns(m, rs), k) == if LastWith(rs, k).Some? then LastWith(rs, k) else Get(m, k)
  {
    if rs != [] {
      var init := rs[..|rs| - 1];
      MergeFunsGet(m, init);
      InsertSpec(MergeFuns(m, init), rs[|rs| - 1].0, rs[|rs| - 1].1);
    }
  }

  /** Children: a name on both sides is merged recursively, a name on one
      side keeps that side's namespace. */
  lemma {:induction false} MergeChildrenGet(m: Entries<Namespace>, b: Namespace, n: nat)
    requires n <= |b.children| && DistinctKeys(m) && DistinctKeys(b.children)
    ensures DistinctKeys(MergeChildren(m, b, n))
    ensures forall k :: Get(MergeChildren(m, b, n), k) == Combine(Get(m, k), LastWith(b.children[..n], k))
  {
    if n > 0 {
      var ps, init := b.children[..n], b.children[..n - 1];
      var prev := MergeChildren(m, b, n - 1);
      var kn, vn := b.children[n - 1].0, b.children[n - 1].1;
      assert ps[..n - 1] == init && ps[n - 1] == (kn, vn);
      MergeChildrenGet(m, b, n - 1);
      assert forall i :: 0 <= i < |init| ==> init[i].0 != kn by {
        forall i | 0 <= i < |init|
          ensures init[i].0 != kn
        {
          assert init[i] == b.children[i];
        }
      }
      LastWithAbsent(init, kn);
      var next := MergeInsert(prev, kn, vn);
      assert next == MergeChildren(m, b, n);
      MergeInsertGet(prev, kn, vn);
      forall k
        ensures Get(next, k) == Combine(Get(m, k), LastWith(ps, k))
      {
        if k != kn {
          assert LastWith(ps, k) == LastWith(init, k);
        }
      }
    }
  }

  /** Merging one entry in: its key gets the combination, every other key
      keeps its value. */
  lemma MergeInsertGet(m: Entries<Namespace>, k: string, v: Namespace)
    requires DistinctKeys(m)
    ensures DistinctKeys(MergeInsert(m, k, v))
    ensures Get(MergeInsert(m, k, v), k) == Combine(Get(m, k), Some(v))
    ensures forall j :: j != k ==> Get(MergeInsert(m, k, v), j) == Get(m, j)
  {
    match Get(m, k)
    case Some(sv) => InsertSpec(m, k, Merge(sv, v));
    case None => InsertSpec(m, k, v);
  }

  // `Context`

  /** `visit_toplevel_ns` over every namespace in turn, from an empty
      context. */
  function Toplevel(decls: seq<NamespaceDecl>): Entries<Namespace>
  {
    if decls == [] then []
    else MergeInsert(Toplevel(decls[..|decls| - 1]), decls[|decls| - 1].name.text, NsOf("", decls[|decls| - 1]))
  }

  /** All the top-level namespaces called `k`, merged in order. */
  function MergedNamed(decls: seq<NamespaceDecl>, k: string): Option<Namespace>
  {
    if decls == [] then None
    else
      var init := MergedNamed(decls[..|decls| - 1], k);
      if decls[|decls| - 1].name.text == k then Combine(init, Some(NsOf("", decls[|decls| - 1]))) else init
  }

  /** Top-level namespaces of the same name are merged, not replaced: the
      context holds, under each name, the merge of all of them in order. */
  lemma {:induction false} ToplevelMerges(decls: seq<NamespaceDecl>)
    ensures DistinctKeys(Toplevel(decls))
    ensures forall k :: Get(Toplevel(decls), k) == MergedNamed(decls, k)
  {
    if decls != [] {
      var init := decls[..|decls| - 1];
      var d := decls[|decls| - 1];
      ToplevelMerges(init);
      var prev := Toplevel(init);
      match Get(prev, d.name.text)
      case Some(sv) => InsertSpec(prev, d.name.text, Merge(sv, NsOf("", d)));
      case None => InsertSpec(prev, d.name.text, NsOf("", d));
    }
  }

  /** Two namespaces with the same name become one entry holding their
      merge. */
  lemma SameNameMerged(d1: NamespaceDecl, d2: NamespaceDecl)
    requires d1.name.text == d2.name.text
    ensures Get(Toplevel([d1, d2]), d1.name.text) == Some(Merge(NsOf("", d1), NsOf("", d2)))
  {
    var k := d1.name.text;
    assert [d1, d2][..1] == [d1];
    ToplevelStep([], d1);
    assert Toplevel([d1]) == MergeInsert([], k, NsOf("", d1));
    assert Toplevel([d1]) == [(k, NsOf("", d1))];
    ToplevelStep([d1], d2);
    assert Get(Toplevel([d1]), k) == Some(NsOf("", d1));
    assert Toplevel([d1, d2]) == [(k, Merge(NsOf("", d1), NsOf("", d2)))];
  }

  /** One more top-level namespace visited. */
  lemma ToplevelStep(ds: seq<NamespaceDecl>, d: NamespaceDecl)
    ensures Toplevel(ds + [d]) == MergeInsert(Toplevel(ds), d.name.text, NsOf("", d))
  {
    assert (ds + [d])[..|ds|] == ds;
  }

  /** The namespaces of every module, in order. */
  function AllDecls(modules: seq<Module>): seq<NamespaceDecl>
  {
    if modules == [] then [] else AllDecls(modules[..|modules| - 1]) + modules[|modules| - 1].namespaces
  }

  lemma ToplevelPrefixStep(done: seq<NamespaceDecl>, ds: seq<NamespaceDecl>, j: nat, before: Entries<Namespace>, after: Entries<Namespace>)
    requires j < |ds| && before == Toplevel(done + ds[..j])
    requires after == MergeInsert(before, ds[j].name.text, NsOf("", ds[j]))
    ensures after == Toplevel(done + ds[..j + 1])
  {
    PrefixStep(done, ds, j);
    ToplevelStep(done + ds[..j], ds[j]);
  }

  lemma PrefixStep<T>(a: seq<T>, b: seq<T>, j: nat)
    requires j < |b|
    ensures a + b[..j + 1] == (a + b[..j]) + [b[j]]
  {
    assert b[..j + 1] == b[..j] + [b[j]];
  }

  lemma AllDeclsStep(modules: seq<Module>, i: nat)
    requires i < |modules|
    ensures AllDecls(modules[..i + 1]) == AllDecls(modules[..i]) + modules[i].namespaces
  {
    assert modules[..i + 1][..i] == modules[..i];
  }

  class Context {
    var namespaces: Entries<Namespace>

    constructor ()
      ensures namespaces == []
    {
      namespaces := [];
    }

    /** `visit_toplevel_ns`: visit the namespace, then merge it into the
        entry of the same name or add it. */
    method VisitToplevelNs(decl: NamespaceDecl)
      modifies this
      ensures namespaces == MergeInsert(old(namespaces), decl.name.text, NsOf("", decl))
    {
      var k := decl.name.text;
      var ns := VisitNs("", decl);
      var found := Get(namespaces, k);
      if found.Some? {
        var merged := MergeInto(found.value, ns);
        namespaces := Insert(namespaces, k, merged);
      } else {
        namespaces := Insert(namespaces, k, ns);
      }
    }

    /** The inner loop of `codegen`: one module's namespaces. */
    method VisitNamespaces(ghost done: seq<NamespaceDecl>, ds: seq<NamespaceDecl>)
      modifies this
      requires namespaces == Toplevel(done)
      ensures namespaces == Toplevel(done + ds)
    {
      assert done + ds[..0] == done;
      for j := 0 to |ds|
        invariant namespaces == Toplevel(done + ds[..j])
      {
        ghost var before := namespaces;
        VisitToplevelNs(ds[j]);
        ToplevelPrefixStep(done, ds, j, before, namespaces);
      }
      assert done + ds[..|ds|] == done + ds;
    }

    /** The loop of `codegen` over every module's namespaces. */
    method VisitModules(modules: seq<Module>)
      modifies this
      requires namespaces == []
      ensures namespaces == Toplevel(AllDecls(modules))
    {
      for i := 0 to |modules|
        invariant namespaces == Toplevel(AllDecls(modules[..i]))
      {
        VisitNamespaces(AllDecls(modules[..i]), modules[i].namespaces);
        AllDeclsStep(modules, i);
      }
      assert modules[..|modules|] == modules;
    }
  }

  // `Namespace::funs` and `Context::funs`

  /** `Namespace::funs`: the children's functions first, then the
      namespace's own. */
  function Funs(ns: Namespace): seq<Fun>
    decreases ns, 1
  {
    ChildFuns(ns, |ns.children|) + Values(ns.funs)
  }

  function ChildFuns(ns: Namespace, n: nat): seq<Fun>
    requires n <= |ns.children|
    decreases ns, 0, n
  {
    if n == 0 then [] else ChildFuns(ns, n - 1) + Funs(ns.children[n - 1].1)
  }

  /** `Context::all_funs`: every top-level namespace's functions, in order. */
  function AllFuns(top: Entries<Namespace>): seq<Fun>
  {
    if top == [] then [] else AllFuns(top[..|top| - 1]) + Funs(top[|top| - 1].1)
  }

  predicate IsNotification(f: Fun)
  {
    Notification in f.decl.modifiers
  }

  /** `Context::funs(kind)`: the functions whose notification flag matches. */
  function FunsOf(notification: bool, fs: seq<Fun>): (r: seq<Fun>)
    ensures forall f :: f in r <==> f in fs && IsNotification(f) == notification
  {
    if fs == [] then []
    else
      var init := FunsOf(notification, fs[..|fs| - 1]);
      var last := fs[|fs| - 1];
      assert forall f :: f in fs <==> f in fs[..|fs| - 1] || f == last;
      if IsNotification(last) == notification then init + [last] else init
  }

  /** Every function is either a request or a notification, never both. */
  lemma {:induction false} FunsOfPartition(fs: seq<Fun>)
    ensures |FunsOf(false, fs)| + |FunsOf(true, fs)| == |fs|
  {
    if fs != [] {
      FunsOfPartition(fs[..|fs| - 1]);
    }
  }

  lemma {:induction false} ChildFunsFrom(ns: Namespace, n: nat, f: Fun)
    requires n <= |ns.children| && f in ChildFuns(ns, n)
    ensures exists k :: 0 <= k < n && f in Funs(ns.children[k].1)
  {
    if f !in Funs(ns.children[n - 1].1) {
      ChildFunsFrom(ns, n - 1, f);
    }
  }

  /** Every child a visited namespace holds is one of its declared
      namespaces, visited under its prefix. */
  lemma ChildOf(prefix: string, decl: NamespaceDecl, k: nat) returns (j: nat)
    requires k < |NsOf(prefix, decl).children|
    ensures j < |decl.namespaces| && NsOf(prefix, decl).children[k].1 == NsOf(Prefix(prefix, decl), decl.namespaces[j])
  {
    var ce := ChildEntries(Prefix(prefix, decl), decl.namespaces);
    InsertAllValues(ce);
    assert InsertAll(ce)[k] in ce;
    var i :| 0 <= i < |ce| && ce[i] == InsertAll(ce)[k];
    j := i;
  }

  lemma StartsWithShorter(s: string, p: string, x: string)
    requires IrNames.StartsWith(s, p + x) || s == p + x
    ensures IrNames.StartsWith(s, p)
  {
    assert s[..|p + x|] == p + x;
    assert s[..|p|] == (p + x)[..|p|];
  }

  /** Every function `funs` lists, however deep, is named under the
      namespace's prefix. */
  lemma {:induction false} FunsUnderPrefix(prefix: string, decl: NamespaceDecl, f: Fun)
    requires f in Funs(NsOf(prefix, decl))
    ensures IrNames.StartsWith(Join(f.tokens, "."), Prefix(prefix, decl))
    decreases decl
  {
    var ns, p := NsOf(prefix, decl), Prefix(prefix, decl);
    if f in Values(ns.funs) {
      LocalFullName(prefix, decl, f);
      StartsWithShorter(Join(f.tokens, "."), p, f.decl.name.text);
    } else {
      var own := ChildFuns(ns, |ns.children|);
      assert Funs(ns) == own + Values(ns.funs);
      assert f in own;
      ChildFunsFrom(ns, |ns.children|, f);
      var k :| 0 <= k < |ns.children| && f in Funs(ns.children[k].1);
      var j := ChildOf(prefix, decl, k);
      FunsUnderPrefix(p, decl.namespaces[j], f);
      AppendAssoc(p, decl.namespaces[j].name.text, ".");
      StartsWithShorter(Join(f.tokens, "."), p, decl.namespaces[j].name.text + ".");
    }
  }

  // `Fun` naming

  /** The tokens as `rpc_name` cases them: the last camel-cased, the others
      mixed-cased. */
  function CasedTokens(tokens: seq<string>, heck: Heck): (r: seq<string>)
    ensures |r| == |tokens|
    ensures |r| >= 1 ==> r[|r| - 1] == heck.camel(tokens[|tokens| - 1])
    ensures forall k :: 0 <= k < |tokens| - 1 ==> r[k] == heck.mixed(tokens[k])
  {
    if tokens == [] then [] else Mixed(tokens[..|tokens| - 1], heck) + [heck.camel(tokens[|tokens| - 1])]
  }

  function Mixed(ts: seq<string>, heck: Heck): (r: seq<string>)
    ensures |r| == |ts| && forall k :: 0 <= k < |ts| ==> r[k] == heck.mixed(ts[k])
  {
    if ts == [] then [] else Mixed(ts[..|ts| - 1], heck) + [heck.mixed(ts[|ts| - 1])]
  }

  /** `rpc_name` */
  function RpcName(f: Fun, heck: Heck): string
  {
    Join(CasedTokens(f.tokens, heck), ".")
  }

  /** `variant_name`: the rpc name with "." replaced by "_". */
  function VariantName(f: Fun, heck: Heck): string
  {
    Replace(RpcName(f, heck), ".", "_")
  }

  /** When the case conversions add no dot, the variant name is the cased
      tokens joined with "_". */
  lemma VariantNameJoins(f: Fun, heck: Heck)
    requires forall k :: 0 <= k < |f.tokens| ==> '.' !in heck.camel(f.tokens[k]) && '.' !in heck.mixed(f.tokens[k])
    ensures VariantName(f, heck) == Join(CasedTokens(f.tokens, heck), "_")
  {
    var cased := CasedTokens(f.tokens, heck);
    assert forall k :: 0 <= k < |cased| ==> '.' !in cased[k];
    IrNames.ReplaceJoin(cased, '.', "_");
  }

  /** When the case conversions add no dot, the rpc name splits back into
      the cased tokens: each token stays one segment on the wire. */
  lemma RpcNameSplits(f: Fun, heck: Heck)
    requires |f.tokens| >= 1
    requires forall k :: 0 <= k < |f.tokens| ==> '.' !in heck.camel(f.tokens[k]) && '.' !in heck.mixed(f.tokens[k])
    ensures Split(RpcName(f, heck), '.') == CasedTokens(f.tokens, heck)
  {
    var cased := CasedTokens(f.tokens, heck);
    assert forall k :: 0 <= k < |cased| ==> '.' !in cased[k];
    JoinSplit(cased, '.');
  }

  /** `qualified_name` */
  function QualifiedName(f: Fun): string
  {
    Join(f.tokens, "::")
  }

  // `Output` and `ScopeLike`

  /** One line as `write_indented` writes it. */
  datatype Line = Line(indent: nat, text: string)

  function LineText(l: Line): string
  {
    Spaces(l.indent) + l.text + "\n"
  }

  function Render(ls: seq<Line>): string
  {
    if ls == [] then "" else Render(ls[..|ls| - 1]) + LineText(ls[|ls| - 1])
  }

  /** Writing two runs of lines one after the other writes their texts one
      after the other. */
  lemma {:induction false} RenderAppend(a: seq<Line>, b: seq<Line>)
    ensures Render(a + b) == Render(a) + Render(b)
    decreases |b|
  {
    if b == [] {
      assert a + b == a;
    } else {
      var init, last := b[..|b| - 1], b[|b| - 1];
      assert (a + b)[..|a + b| - 1] == a + init;
      assert (a + b)[|a + b| - 1] == last;
      RenderAppend(a, init);
      assert Render(a + b) == Render(a + init) + LineText(last);
      assert Render(b) == Render(init) + LineText(last);
      AppendAssoc(Render(a), Render(init), LineText(last));
    }
  }

  /** The first line written is the start of the text. */
  lemma {:induction false} RenderFirst(ls: seq<Line>)
    requires |ls| > 0
    ensures IrNames.StartsWith(Render(ls), LineText(ls[0]))
  {
    RenderAppend([ls[0]], ls[1..]);
    assert [ls[0]] + ls[1..] == ls;
    assert Render([ls[0]]) == LineText(ls[0]) by {
      assert [ls[0]][..0] == [];
    }
  }

  class Output {
    var text: string

    constructor ()
      ensures text == ""
    {
      text := "";
    }

    /** `write_indented`: `indent` spaces one by one, the line, a newline.
        Unlike the indenting writer, a blank line gets its spaces too. */
    method WriteIndented(indent: nat, line: string)
      modifies this
      ensures text == old(text) + LineText(Line(indent, line))
    {
      for i := 0 to indent
        invariant text == old(text) + Spaces(i)
      {
        assert Spaces(i + 1) == Spaces(i) + " ";
        text := text + " ";
      }
      text := text + line + "\n";
    }

    /** The lines, one `write_indented` each. */
    method WriteLines(ls: seq<Line>)
      modifies this
      ensures text == old(text) + Render(ls)
    {
      for i := 0 to |ls|
        invariant text == old(text) + Render(ls[..i])
      {
        assert ls[..i + 1][..i] == ls[..i];
        WriteIndented(ls[i].indent, ls[i].text);
      }
      assert ls[..|ls|] == ls;
    }
  }

  /** The two `ScopeLike`s: the context writes at column 0, a scope at its
      own indentation. */
  datatype ScopeLike = ContextScope | ChildScope(indent: nat)

  function IndentOf(s: ScopeLike): nat
  {
    match s
    case ContextScope => 0
    case ChildScope(i) => i
  }

  /** `scope()`: one level deeper. */
  function Inner(s: ScopeLike): (r: ScopeLike)
    ensures IndentOf(r) == IndentOf(s) + LavishOutput.IndentWidth
  {
    ChildScope(IndentOf(s) + LavishOutput.IndentWidth)
  }

  function Deep(n: nat): ScopeLike
  {
    if n == 0 then ContextScope else Inner(Deep(n - 1))
  }

  /** Each level of scope adds four columns to the context's zero. */
  lemma {:induction false} DeepIndent(n: nat)
    ensures IndentOf(Deep(n)) == 4 * n
  {
    if n > 0 {
      DeepIndent(n - 1);
    }
  }

  /** `comment`: "// " + line, per line. */
  function CommentLines(indent: nat, c: Option<Comment>): (r: seq<Line>)
    ensures c.None? ==> r == []
    ensures c.Some? ==> |r| == |c.value.lines| && forall k :: 0 <= k < |r| ==> r[k] == Line(indent, "// " + c.value.lines[k])
  {
    if c.None? then [] else Prefixed(indent, "// ", c.value.lines)
  }

  function Prefixed(indent: nat, p: string, ls: seq<string>): (r: seq<Line>)
    ensures |r| == |ls| && forall k :: 0 <= k < |ls| ==> r[k] == Line(indent, p + ls[k])
  {
    if ls == [] then [] else Prefixed(indent, p, ls[..|ls| - 1]) + [Line(indent, p + ls[|ls| - 1])]
  }

  // `codegen`

  const HeaderLines: seq<string> := [
    "// This file is generated by lavish: DO NOT EDIT",
    "// https://github.com/fasterthanlime/lavish",
    "",
    "// Disable some lints, since this file is generated.",
    "#![allow(clippy::all)]",
    "#![allow(unknown_lints)]",
    "",
    "use lavish_rpc::serde_derive::*;",
    "use lavish_rpc::erased_serde;",
    "",
    "pub type Message = lavish_rpc::Message<Params, NotificationParams, Results>;"]

  function At(indent: nat, ls: seq<string>): (r: seq<Line>)
    ensures |r| == |ls| && forall k :: 0 <= k < |ls| ==> r[k] == Line(indent, ls[k])
  {
    if ls == [] then [] else At(indent, ls[..|ls| - 1]) + [Line(indent, ls[|ls| - 1])]
  }

  /** `write_enum`: one "variant(qualified::Kind)," per function, a level
      in. */
  function EnumLines(kind: string, fs: seq<Fun>, heck: Heck): (r: seq<Line>)
    ensures |r| == |fs|
    ensures forall k :: 0 <= k < |fs| ==> r[k] == Line(4, VariantName(fs[k], heck) + "(" + QualifiedName(fs[k]) + "::" + kind + "),")
  {
    if fs == [] then []
    else
      var f := fs[|fs| - 1];
      EnumLines(kind, fs[..|fs| - 1], heck) + [Line(4, VariantName(f, heck) + "(" + QualifiedName(f) + "::" + kind + "),")]
  }

  const EnumHead: seq<string> := ["", "#[derive(Serialize, Debug)]", "#[serde(untagged)]", "#[allow(non_camel_case_types, unused)]"]

  function EnumBlock(name: string, kind: string, fs: seq<Fun>, heck: Heck): seq<Line>
  {
    At(0, EnumHead + ["pub enum " + name + " {"]) + EnumLines(kind, fs, heck) + [Line(0, "}")]
  }

  /** `method`'s arms: the variant names its function's rpc name. */
  function MethodArms(side: string, fs: seq<Fun>, heck: Heck): (r: seq<Line>)
    ensures |r| == |fs|
    ensures forall k :: 0 <= k < |fs| ==> r[k] == Line(12, side + "::" + VariantName(fs[k], heck) + "(_) => " + RustLang.Quoted(RpcName(fs[k], heck)) + ",")
  {
    if fs == [] then []
    else
      var f := fs[|fs| - 1];
      MethodArms(side, fs[..|fs| - 1], heck) + [Line(12, side + "::" + VariantName(f, heck) + "(_) => " + RustLang.Quoted(RpcName(f, heck)) + ",")]
  }

  /** One arm of `deserialize`: the quoted rpc name, then the variant built
      from the function's struct. */
  function DeserializeArm(strukt: string, side: string, f: Fun, heck: Heck): (r: seq<Line>)
    ensures |r| == 2 && r[0] == Line(12, RustLang.Quoted(RpcName(f, heck)) + " =>") && r[1].indent == 16
  {
    [Line(12, RustLang.Quoted(RpcName(f, heck)) + " =>"),
     Line(16, "Ok(" + side + "::" + VariantName(f, heck) + "(deser::<" + QualifiedName(f) + "::" + strukt + ">(de)?)),")]
  }

  function DeserializeArms(strukt: string, side: string, fs: seq<Fun>, heck: Heck): (r: seq<Line>)
    ensures |r| == 2 * |fs|
  {
    if fs == [] then [] else DeserializeArms(strukt, side, fs[..|fs| - 1], heck) + DeserializeArm(strukt, side, fs[|fs| - 1], heck)
  }

  lemma SliceLeft<T>(a: seq<T>, b: seq<T>, i: nat, j: nat)
    requires i <= j <= |a|
    ensures (a + b)[i..j] == a[i..j]
  {
  }

  lemma SliceRight<T>(a: seq<T>, b: seq<T>)
    ensures (a + b)[|a|..|a| + |b|] == b
  {
  }

  /** The `k`-th function's arm of `deserialize` is its own. */
  lemma {:induction false} DeserializeArmAt(strukt: string, side: string, fs: seq<Fun>, heck: Heck, k: nat)
    requires k < |fs|
    ensures DeserializeArms(strukt, side, fs, heck)[2 * k..2 * k + 2] == DeserializeArm(strukt, side, fs[k], heck)
  {
    var n := |fs| - 1;
    var init, arm := DeserializeArms(strukt, side, fs[..n], heck), DeserializeArm(strukt, side, fs[n], heck);
    assert DeserializeArms(strukt, side, fs, heck) == init + arm;
    if k < n {
      DeserializeArmAt(strukt, side, fs[..n], heck, k);
      assert fs[..n][k] == fs[k];
      SliceLeft(init, arm, 2 * k, 2 * k + 2);
    } else {
      assert |init| == 2 * k && |arm| == 2;
      SliceRight(init, arm);
    }
  }

  /** The functions as the shared atom model sees them: their kind and
      their cased tokens. */
  function CasedAtoms(fs: seq<Fun>, heck: Heck): (r: seq<IrAtoms.AtomFun>)
    ensures |r| == |fs|
    ensures forall k :: 0 <= k < |fs| ==> r[k] == IrAtoms.AtomFun(if IsNotification(fs[k]) then IrAtoms.Notification else IrAtoms.Request, CasedTokens(fs[k].tokens, heck))
  {
    if fs == [] then []
    else
      var f := fs[|fs| - 1];
      CasedAtoms(fs[..|fs| - 1], heck) + [IrAtoms.AtomFun(if IsNotification(f) then IrAtoms.Notification else IrAtoms.Request, CasedTokens(f.tokens, heck))]
  }

  /** With distinct rpc names, the arm `deserialize` picks for the literal
      that `method` writes for the `k`-th function is that function's own:
      the two halves of the impl agree. */
  lemma DispatchRoundTrip(fs: seq<Fun>, heck: Heck, k: nat)
    requires k < |fs|
    requires forall i, j :: 0 <= i < j < |fs| ==> RpcName(fs[i], heck) != RpcName(fs[j], heck)
    ensures IrAtoms.Dispatch(CasedAtoms(fs, heck), RustLang.Quoted(RpcName(fs[k], heck))) == Some(k)
  {
    var gs := CasedAtoms(fs, heck);
    assert IrAtoms.DistinctRpcNames(gs) by {
      forall i, j | 0 <= i < j < |gs|
        ensures IrNames.RpcName(gs[i].tokens) != IrNames.RpcName(gs[j].tokens)
      {
        assert IrNames.RpcName(gs[i].tokens) == RpcName(fs[i], heck);
        assert IrNames.RpcName(gs[j].tokens) == RpcName(fs[j], heck);
      }
    }
    IrAtoms.DispatchRoundTrip(gs, k);
  }

  const DeserializeHead: seq<Line> := [
    Line(4, ""), Line(4, "fn deserialize("), Line(8, "method: &str,"), Line(8, "de: &mut erased_serde::Deserializer,"),
    Line(4, ") -> erased_serde::Result<Self> {"),
    Line(8, "use erased_serde::deserialize as deser;"), Line(8, "use serde::de::Error;"), Line(8, ""), Line(8, "match method {")]

  function DeserializeTail(): seq<Line>
  {
    [Line(12, "_ => Err(erased_serde::Error::custom(format!("), Line(16, RustLang.Quoted("unknown method: {}") + ","),
     Line(16, "method,"), Line(12, "))),"), Line(8, "}"), Line(4, "}")]
  }

  /** `impl lavish_rpc::Atom for <side>`. */
  function AtomImpl(strukt: string, side: string, fs: seq<Fun>, heck: Heck): seq<Line>
  {
    [Line(0, ""), Line(0, "impl lavish_rpc::Atom for " + side + " {"), Line(4, "fn method(&self) -> &'static str {"), Line(8, "match self {")]
      + MethodArms(side, fs, heck) + [Line(8, "}"), Line(4, "}")]
      + DeserializeHead + DeserializeArms(strukt, side, fs, heck) + DeserializeTail()
      + [Line(0, "}")]
  }

  /** "pub name: type," per field. */
  function FieldLines(indent: nat, fields: seq<Field>, typeText: Type -> string): (r: seq<Line>)
    ensures |r| == |fields| && forall k :: 0 <= k < |fields| ==> r[k] == Line(indent, "pub " + fields[k].name.text + ": " + typeText(fields[k].typ) + ",")
  {
    if fields == [] then []
    else FieldLines(indent, fields[..|fields| - 1], typeText) + [Line(indent, "pub " + fields[|fields| - 1].name.text + ": " + typeText(fields[|fields| - 1].typ) + ",")]
  }

  /** `def_struct` */
  function StructLines(indent: nat, name: string, fields: seq<Field>, typeText: Type -> string): seq<Line>
  {
    [Line(indent, "#[derive(Serialize, Deserialize, Debug)]"), Line(indent, "pub struct " + name + " {")]
      + FieldLines(indent + 4, fields, typeText) + [Line(indent, "}")]
  }

  /** A function's module: params, and results unless it is a
      notification. */
  function FunLines(indent: nat, f: Fun, heck: Heck, typeText: Type -> string): seq<Line>
  {
    var inner := indent + 4;
    CommentLines(indent, f.decl.comment) + [Line(indent, "pub mod " + heck.snake(f.decl.name.text) + " {")]
      + [Line(inner, "use lavish_rpc::serde_derive::*;"), Line(inner, "")]
      + StructLines(inner, "Params", f.decl.params, typeText)
      + (if IsNotification(f) then [] else [Line(inner, "")] + StructLines(inner, "Results", f.decl.results, typeText))
      + [Line(indent, "}"), Line(indent, "")]
  }

  /** The nested `visit_ns`: children first, then the functions, inside a
      `pub mod` block. */
  function NsLines(indent: nat, ns: Namespace, heck: Heck, typeText: Type -> string): seq<Line>
    decreases ns, 2
  {
    [Line(indent, "pub mod " + ns.decl.name.text + " {")]
      + ChildLines(indent + 4, ns, |ns.children|, heck, typeText)
      + FunsLines(indent + 4, Values(ns.funs), heck, typeText)
      + [Line(indent, "}"), Line(indent, "")]
  }

  function ChildLines(indent: nat, ns: Namespace, n: nat, heck: Heck, typeText: Type -> string): seq<Line>
    requires n <= |ns.children|
    decreases ns, 1, n
  {
    if n == 0 then [] else ChildLines(indent, ns, n - 1, heck, typeText) + NsLines(indent, ns.children[n - 1].1, heck, typeText)
  }

  function FunsLines(indent: nat, fs: seq<Fun>, heck: Heck, typeText: Type -> string): seq<Line>
  {
    if fs == [] then [] else FunsLines(indent, fs[..|fs| - 1], heck, typeText) + FunLines(indent, fs[|fs| - 1], heck, typeText)
  }

  ghost predicate Deeper(ls: seq<Line>, indent: nat)
  {
    forall k :: 0 <= k < |ls| ==> ls[k].indent >= indent
  }

  lemma DeeperAppend(a: seq<Line>, b: seq<Line>, indent: nat)
    requires Deeper(a, indent) && Deeper(b, indent)
    ensures Deeper(a + b, indent)
  {
  }

  lemma StructLinesDeeper(indent: nat, name: string, fields: seq<Field>, typeText: Type -> string)
    ensures Deeper(StructLines(indent, name, fields, typeText), indent)
  {
  }

  lemma FunLinesDeeper(indent: nat, f: Fun, heck: Heck, typeText: Type -> string)
    ensures Deeper(FunLines(indent, f, heck, typeText), indent)
  {
    var inner := indent + 4;
    StructLinesDeeper(inner, "Params", f.decl.params, typeText);
    StructLinesDeeper(inner, "Results", f.decl.results, typeText);
  }

  lemma {:induction false} FunsLinesDeeper(indent: nat, fs: seq<Fun>, heck: Heck, typeText: Type -> string)
    ensures Deeper(FunsLines(indent, fs, heck, typeText), indent)
  {
    if fs != [] {
      FunsLinesDeeper(indent, fs[..|fs| - 1], heck, typeText);
      FunLinesDeeper(indent, fs[|fs| - 1], heck, typeText);
    }
  }

  /** Nothing a namespace writes is to the left of its `pub mod` line: each
      nested scope indents further. */
  lemma {:induction false} NsLinesDeeper(indent: nat, ns: Namespace, heck: Heck, typeText: Type -> string)
    ensures Deeper(NsLines(indent, ns, heck, typeText), indent)
    decreases ns, 2
  {
    ChildLinesDeeper(indent + 4, ns, |ns.children|, heck, typeText);
    FunsLinesDeeper(indent + 4, Values(ns.funs), heck, typeText);
  }

  lemma {:induction false} ChildLinesDeeper(indent: nat, ns: Namespace, n: nat, heck: Heck, typeText: Type -> string)
    requires n <= |ns.children|
    ensures Deeper(ChildLines(indent, ns, n, heck, typeText), indent)
    decreases ns, 1, n
  {
    if n > 0 {
      ChildLinesDeeper(indent, ns, n - 1, heck, typeText);
      NsLinesDeeper(indent, ns.children[n - 1].1, heck, typeText);
    }
  }

  /** Every top-level namespace, each after a blank line. */
  function TopLines(top: Entries<Namespace>, heck: Heck, typeText: Type -> string): seq<Line>
  {
    if top == [] then [] else TopLines(top[..|top| - 1], heck, typeText) + [Line(0, "")] + NsLines(0, top[|top| - 1].1, heck, typeText)
  }

  /** Everything `codegen` writes after the header: the enums, the atom
      impls, and the namespaces. */
  function Generated(top: Entries<Namespace>, heck: Heck, typeText: Type -> string): seq<Line>
  {
    var all := AllFuns(top);
    var requests, notifications := FunsOf(false, all), FunsOf(true, all);
    EnumBlock("Params", "Params", requests, heck)
      + EnumBlock("Results", "Results", requests, heck)
      + EnumBlock("NotificationParams", "Params", notifications, heck)
      + AtomImpl("Params", "Params", requests, heck)
      + AtomImpl("Results", "Results", requests, heck)
      + AtomImpl("Params", "NotificationParams", notifications, heck)
      + TopLines(top, heck, typeText)
  }

  /** Everything `codegen` writes, in order. */
  function CodegenLines(top: Entries<Namespace>, heck: Heck, typeText: Type -> string): seq<Line>
  {
    At(0, HeaderLines) + Generated(top, heck, typeText)
  }

  lemma StartsWithTrans(s: string, t: string, u: string)
    requires IrNames.StartsWith(s, t) && IrNames.StartsWith(t, u)
    ensures IrNames.StartsWith(s, u)
  {
    assert s[..|u|] == s[..|t|][..|u|];
  }

  const Banner: string := "// This file is generated by lavish: DO NOT EDIT\n"

  /** Whatever follows the header, the file opens with the do-not-edit
      banner, unindented. */
  lemma HeaderBanner(rest: seq<Line>)
    ensures IrNames.StartsWith(Render(At(0, HeaderLines) + rest), Banner)
  {
    var head := At(0, HeaderLines);
    FirstLineLeads(head, rest);
    assert LineText(head[0]) == Banner by {
      assert head[0] == Line(0, HeaderLines[0]);
      assert Spaces(0) == "";
    }
  }

  /** A run of lines followed by more starts with its first line's text. */
  lemma FirstLineLeads(head: seq<Line>, rest: seq<Line>)
    requires |head| > 0
    ensures IrNames.StartsWith(Render(head + rest), LineText(head[0]))
  {
    RenderAppend(head, rest);
    assert IrNames.StartsWith(Render(head + rest), Render(head));
    RenderFirst(head);
    StartsWithTrans(Render(head + rest), Render(head), LineText(head[0]));
  }

  /** The generated file opens with the do-not-edit banner. */
  lemma CodegenBanner(top: Entries<Namespace>, heck: Heck, typeText: Type -> string)
    ensures IrNames.StartsWith(Render(CodegenLines(top, heck, typeText)), Banner)
  {
    HeaderBanner(Generated(top, heck, typeText));
  }

  /** `codegen`: visit every module's namespaces, then write the file. */
  method Codegen(modules: seq<Module>, heck: Heck, typeText: Type -> string) returns (text: string)
    ensures text == Render(CodegenLines(Toplevel(AllDecls(modules)), heck, typeText))
  {
    var ctx := new Context();
    ctx.VisitModules(modules);
    var out := new Output();
    out.WriteLines(CodegenLines(ctx.namespaces, heck, typeText));
    text := out.text;
  }
}
