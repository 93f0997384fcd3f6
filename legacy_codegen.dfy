/** The first code generator of the newer crate (src/codegen/rust.rs): it
    writes a fixed `Message` enum header to the output file, then collects
    every function of every module's namespaces under its dotted full name
    and reports each one. */
module LegacyCodegen {
  import opened Common
  import opened LegacyAst

  datatype FnName = FnName(fullName: string)

  /** What `visit_ns` pushes: a full name and the declaration it names. */
  type Found = seq<(FnName, FunctionDecl)>

  /** The prefix a namespace hands to its functions and children. */
  function NsPrefix(prefix: string, ns: NamespaceDecl): (r: string)
    ensures |r| > 0 && r[|r| - 1] == '.'
    ensures |prefix| < |r| && r[..|prefix|] == prefix
  {
    prefix + ns.name + "."
  }

  /** The namespace's own functions, each under `p` + its name. */
  function Own(p: string, fs: seq<FunctionDecl>): (r: Found)
    ensures |r| == |fs|
    ensures forall k :: 0 <= k < |fs| ==> r[k] == (FnName(p + fs[k].name), fs[k])
  {
    if fs == [] then [] else Own(p, fs[..|fs| - 1]) + [(FnName(p + fs[|fs| - 1].name), fs[|fs| - 1])]
  }

  /** Everything `visit_ns` collects under `ns`, in push order: the own
      functions first, then each child namespace in turn. */
  function Visited(prefix: string, ns: NamespaceDecl): Found
    decreases ns, |ns.namespaces| + 1
  {
    var p := NsPrefix(prefix, ns);
    Own(p, ns.functions) + Nested(p, ns, |ns.namespaces|)
  }

  /** What the first `n` children of `parent` contribute under `p`. */
  function Nested(p: string, parent: NamespaceDecl, n: nat): Found
    requires n <= |parent.namespaces|
    decreases parent, n
  {
    if n == 0 then [] else Nested(p, parent, n - 1) + Visited(p, parent.namespaces[n - 1])
  }

  /** `visit_ns`: appends to `functions` the namespace's own functions, each
      under prefix + namespace name + "." + function name, then recurses
      into the child namespaces in order. */
  method VisitNs(functions: Found, prefix: string, ns: NamespaceDecl) returns (out: Found)
    ensures out == functions + Visited(prefix, ns)
    decreases ns
  {
    var p := prefix + ns.name + ".";
    out := functions;
    for i := 0 to |ns.functions|
      invariant out == functions + Own(p, ns.functions[..i])
    {
      var f := ns.functions[i];
      assert ns.functions[..i + 1][..i] == ns.functions[..i];
      out := out + [(FnName(p + f.name), f)];
    }
    assert ns.functions[..|ns.functions|] == ns.functions;
    ghost var own := out;
    for j := 0 to |ns.namespaces|
      invariant out == own + Nested(p, ns, j)
    {
      out := VisitNs(out, p, ns.namespaces[j]);
      AppendAssoc(own, Nested(p, ns, j), Visited(p, ns.namespaces[j]));
    }
    AppendAssoc(functions, Own(p, ns.functions), Nested(p, ns, |ns.namespaces|));
  }

  /** Functions declared anywhere under `ns`, counted independently of the
      names they are given. */
  function FunctionCount(ns: NamespaceDecl): nat
    decreases ns, |ns.namespaces| + 1
  {
    |ns.functions| + ChildCount(ns, |ns.namespaces|)
  }

  function ChildCount(parent: NamespaceDecl, n: nat): nat
    requires n <= |parent.namespaces|
    decreases parent, n
  {
    if n == 0 then 0 else ChildCount(parent, n - 1) + FunctionCount(parent.namespaces[n - 1])
  }

  /** Every function of the tree is collected exactly as often as it is
      declared: the collection has one entry per declaration. */
  lemma {:induction false} VisitedCount(prefix: string, ns: NamespaceDecl)
    ensures |Visited(prefix, ns)| == FunctionCount(ns)
    decreases ns, |ns.namespaces| + 1
  {
    NestedCount(NsPrefix(prefix, ns), ns, |ns.namespaces|);
  }

  lemma {:induction false} NestedCount(p: string, parent: NamespaceDecl, n: nat)
    requires n <= |parent.namespaces|
    ensures |Nested(p, parent, n)| == ChildCount(parent, n)
    decreases parent, n
  {
    if n > 0 {
      NestedCount(p, parent, n - 1);
      VisitedCount(p, parent.namespaces[n - 1]);
    }
  }

  predicate StartsWith(s: string, p: string)
  {
    |p| <= |s| && s[..|p|] == p
  }

  predicate EndsWith(s: string, q: string)
  {
    |q| <= |s| && s[|s| - |q|..] == q
  }

  /** A name sitting under a namespace: it starts with the namespace's
      prefix and ends with "." and the function's own name. */
  predicate NamedUnder(e: (FnName, FunctionDecl), p: string)
  {
    StartsWith(e.0.fullName, p) && EndsWith(e.0.fullName, "." + e.1.name)
  }

  /** Every full name collected under `ns` starts with prefix + namespace
      name + "." and ends with "." + the function's own name. */
  lemma {:induction false} VisitedNames(prefix: string, ns: NamespaceDecl)
    ensures forall k :: 0 <= k < |Visited(prefix, ns)| ==> NamedUnder(Visited(prefix, ns)[k], NsPrefix(prefix, ns))
    decreases ns, |ns.namespaces| + 1
  {
    var p := NsPrefix(prefix, ns);
    var own := Own(p, ns.functions);
    forall k | 0 <= k < |own|
      ensures NamedUnder(own[k], p)
    {
      OwnName(p, own[k].1.name);
    }
    NestedNames(p, ns, |ns.namespaces|);
    var r := Visited(prefix, ns);
    forall k | 0 <= k < |r|
      ensures NamedUnder(r[k], p)
    {
      if k < |own| {
        assert r[k] == own[k];
      } else {
        assert r[k] == Nested(p, ns, |ns.namespaces|)[k - |own|];
      }
    }
  }

  /** A name made of a dot-terminated prefix and a function name. */
  lemma OwnName(p: string, name: string)
    requires |p| > 0 && p[|p| - 1] == '.'
    ensures StartsWith(p + name, p) && EndsWith(p + name, "." + name)
  {
    var s := p + name;
    assert s[|s| - |name| - 1..] == [p[|p| - 1]] + name;
  }

  lemma {:induction false} NestedNames(p: string, parent: NamespaceDecl, n: nat)
    requires n <= |parent.namespaces|
    ensures forall k :: 0 <= k < |Nested(p, parent, n)| ==> NamedUnder(Nested(p, parent, n)[k], p)
    decreases parent, n
  {
    if n > 0 {
      var init := Nested(p, parent, n - 1);
      var child := parent.namespaces[n - 1];
      var last := Visited(p, child);
      NestedNames(p, parent, n - 1);
      VisitedNames(p, child);
      var q := NsPrefix(p, child);
      forall k | 0 <= k < |init| + |last|
        ensures NamedUnder((init + last)[k], p)
      {
        if k >= |init| {
          var s := last[k - |init|].0.fullName;
          assert StartsWith(s, q);
          assert s[..|p|] == q[..|p|];
        }
      }
    }
  }

  // `codegen`

  /** The fixed text `codegen` writes first: a blank line, then the
      `Message` enum with its `Request` and `Response` variants. */
  const MessageHeader: string :=
    "\n"
    + "#[derive(Debug)]\n"
    + "enum Message {\n"
    + "    Request {\n"
    + "        parent: Option<u32>,\n"
    + "        id: u32,\n"
    + "        params: Params,\n"
    + "    },\n"
    + "    #[allow(unused)]\n"
    + "    Response {\n"
    + "        id: u32,\n"
    + "        error: Option<String>,\n"
    + "        results: Results,\n"
    + "    },\n"
    + "}\n"

  /** What `codegen` collects from one module's namespaces, in order, each
      visited with the empty prefix. */
  function ModuleFound(m: Module, n: nat): Found
    requires n <= |m.namespaces|
  {
    if n == 0 then [] else ModuleFound(m, n - 1) + Visited("", m.namespaces[n - 1])
  }

  /** What `codegen` collects from all modules, in order. */
  function AllFound(modules: seq<Module>): Found
  {
    if modules == [] then []
    else AllFound(modules[..|modules| - 1]) + ModuleFound(modules[|modules| - 1], |modules[|modules| - 1].namespaces|)
  }

  /** The report line `codegen` prints for each collected function. */
  function ReportLines(found: Found): (r: seq<string>)
    ensures |r| == |found|
    ensures forall k :: 0 <= k < |found| ==> r[k] == "Found " + found[k].0.fullName
  {
    if found == [] then [] else ReportLines(found[..|found| - 1]) + ["Found " + found[|found| - 1].0.fullName]
  }

  /** `codegen`: the output file holds exactly the header; the functions
      are collected module by module, namespace by namespace, and one
      report line is produced per collected function, in that order. */
  method Codegen(modules: seq<Module>) returns (file: string, report: seq<string>)
    ensures file == MessageHeader
    ensures report == ReportLines(AllFound(modules))
  {
    file := MessageHeader;
    var functions: Found := [];
    for i := 0 to |modules|
      invariant functions == AllFound(modules[..i])
    {
      var m := modules[i];
      assert modules[..i + 1][..i] == modules[..i];
      ghost var before := functions;
      for j := 0 to |m.namespaces|
        invariant functions == before + ModuleFound(m, j)
      {
        functions := VisitNs(functions, "", m.namespaces[j]);
        AppendAssoc(before, ModuleFound(m, j), Visited("", m.namespaces[j]));
      }
    }
    assert modules[..|modules|] == modules;
    report := [];
    for k := 0 to |functions|
      invariant report == ReportLines(functions[..k])
    {
      assert functions[..k + 1][..k] == functions[..k];
      report := report + ["Found " + functions[k].0.fullName];
    }
    assert functions[..|functions|] == functions;
  }
}
