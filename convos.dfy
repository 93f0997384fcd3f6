/** The conversation checker of the newer generation (src/checker/convos.rs):
    a function with a body declares the calls that may be made while it is
    in progress, and those must come from the other side.  Every function
    directly inside a body must therefore be on the side opposite its
    parent's. */
module Convos {
  import opened Common
  import opened NewAst

  /** One printed pair: "<child> should be <expected>" at the child, and
      "because its parent, <parent>, is <side>" at the parent. */
  datatype SideError = SideError(child: FunctionDecl, expected: Side, parent: FunctionDecl)

  datatype CheckError = CheckError(numErrors: nat)

  function Message(e: SideError): string
  {
    "error: " + e.child.name.text + " should be " + SideName(e.expected)
  }

  function Because(e: SideError): string
  {
    "because its parent, " + e.parent.name.text + ", is " + SideName(e.parent.side)
  }

  // What each visit reports, in printing order.

  /** The check of a parent's direct children, in order. */
  function ChildErrors(parent: FunctionDecl, fs: seq<FunctionDecl>): seq<SideError>
  {
    if fs == [] then []
    else
      var f := fs[|fs| - 1];
      ChildErrors(parent, fs[..|fs| - 1])
      + (if f.side != Other(parent.side) then [SideError(f, Other(parent.side), parent)] else [])
  }

  /** A body: its namespaces, then its functions. */
  function BodyErrors(b: NamespaceBody): seq<SideError>
    decreases b, 1
  {
    NamespaceListErrors(b.namespaces) + FunctionListErrors(b.functions)
  }

  function NamespaceListErrors(nss: seq<NamespaceDecl>): seq<SideError>
    decreases nss, 0
  {
    if nss == [] then []
    else NamespaceListErrors(nss[..|nss| - 1]) + NamespaceErrors(nss[|nss| - 1])
  }

  /** A namespace: its body. */
  function NamespaceErrors(ns: NamespaceDecl): seq<SideError>
    decreases ns, 2
  {
    BodyErrors(ns.body)
  }

  function FunctionListErrors(fs: seq<FunctionDecl>): seq<SideError>
    decreases fs, 0
  {
    if fs == [] then []
    else FunctionListErrors(fs[..|fs| - 1]) + FunctionErrors(fs[|fs| - 1])
  }

  /** A function without a body reports nothing; one with a body checks its
      direct children, then visits the body. */
  function FunctionErrors(f: FunctionDecl): seq<SideError>
    decreases f, 2
  {
    if f.body.None? then []
    else ChildErrors(f, f.body.value.functions) + BodyErrors(f.body.value)
  }

  /** The schema visit starts from the root's namespaces only. */
  function SchemaErrors(s: Schema): seq<SideError>
  {
    NamespaceListErrors(s.body.namespaces)
  }

  // The independent reading: which trees alternate.

  /** Each direct child of `parent` is on the side opposite the parent's. */
  predicate ChildrenOpposite(parent: FunctionDecl, fs: seq<FunctionDecl>)
  {
    forall k :: 0 <= k < |fs| ==> fs[k].side == Other(parent.side)
  }

  /** A function alternates when, if it has a body, its children are on the
      other side and the body alternates in turn. */
  predicate Alternates(f: FunctionDecl)
    decreases f, 2
  {
    f.body.Some? ==> ChildrenOpposite(f, f.body.value.functions) && BodyAlternates(f.body.value)
  }

  /** In a body, no side is imposed on the functions themselves: only what
      their own bodies hold is checked. */
  predicate BodyAlternates(b: NamespaceBody)
    decreases b, 1
  {
    AllNamespacesAlternate(b.namespaces) && AllFunctionsAlternate(b.functions)
  }

  predicate AllNamespacesAlternate(nss: seq<NamespaceDecl>)
    decreases nss, 0
  {
    nss == [] || (AllNamespacesAlternate(nss[..|nss| - 1]) && NamespaceAlternates(nss[|nss| - 1]))
  }

  predicate NamespaceAlternates(ns: NamespaceDecl)
    decreases ns, 2
  {
    BodyAlternates(ns.body)
  }

  predicate AllFunctionsAlternate(fs: seq<FunctionDecl>)
    decreases fs, 0
  {
    fs == [] || (AllFunctionsAlternate(fs[..|fs| - 1]) && Alternates(fs[|fs| - 1]))
  }

  /** A child is reported exactly when it is on its parent's side, and the
      report says it should be on the other one. */
  lemma {:induction false} ChildErrorsMeaning(parent: FunctionDecl, fs: seq<FunctionDecl>)
    ensures forall e :: e in ChildErrors(parent, fs) ==>
      e.parent == parent && e.expected == Other(parent.side) && e.child in fs && e.child.side == parent.side
    ensures ChildErrors(parent, fs) == [] <==> ChildrenOpposite(parent, fs)
  {
    if fs != [] {
      var prev := fs[..|fs| - 1];
      ChildErrorsMeaning(parent, prev);
      assert forall k :: 0 <= k < |prev| ==> prev[k] == fs[k];
      if fs[|fs| - 1].side != Other(parent.side) {
        OtherInvolution(parent.side);
        assert fs[|fs| - 1].side == parent.side;
      }
    }
  }

  lemma {:induction false} FunctionClean(f: FunctionDecl)
    ensures FunctionErrors(f) == [] <==> Alternates(f)
    decreases f, 2
  {
    if f.body.Some? {
      ChildErrorsMeaning(f, f.body.value.functions);
      BodyClean(f.body.value);
    }
  }

  lemma {:induction false} BodyClean(b: NamespaceBody)
    ensures BodyErrors(b) == [] <==> BodyAlternates(b)
    decreases b, 1
  {
    NamespaceListClean(b.namespaces);
    FunctionListClean(b.functions);
  }

  lemma {:induction false} NamespaceListClean(nss: seq<NamespaceDecl>)
    ensures NamespaceListErrors(nss) == [] <==> AllNamespacesAlternate(nss)
    decreases nss, 0
  {
    if nss != [] {
      NamespaceListClean(nss[..|nss| - 1]);
      NamespaceClean(nss[|nss| - 1]);
    }
  }

  lemma {:induction false} NamespaceClean(ns: NamespaceDecl)
    ensures NamespaceErrors(ns) == [] <==> NamespaceAlternates(ns)
    decreases ns, 2
  {
    BodyClean(ns.body);
  }

  lemma {:induction false} FunctionListClean(fs: seq<FunctionDecl>)
    ensures FunctionListErrors(fs) == [] <==> AllFunctionsAlternate(fs)
    decreases fs, 0
  {
    if fs != [] {
      FunctionListClean(fs[..|fs| - 1]);
      FunctionClean(fs[|fs| - 1]);
    }
  }

  /** The schema passes exactly when every root namespace alternates. */
  lemma SchemaClean(s: Schema)
    ensures SchemaErrors(s) == [] <==> AllNamespacesAlternate(s.body.namespaces)
  {
    NamespaceListClean(s.body.namespaces);
  }

  /** Functions at the schema root are never visited: replacing them changes
      nothing in the report. */
  lemma RootFunctionsUnchecked(s: Schema, fs: seq<FunctionDecl>)
    ensures SchemaErrors(s.(body := s.body.(functions := fs))) == SchemaErrors(s)
  {
  }

  /** A function with no body reports nothing, whatever its side. */
  lemma NoBodyNoError(f: FunctionDecl, side: Side)
    requires f.body.None?
    ensures FunctionErrors(f.(side := side)) == []
  {
  }

  /** The visitor and what it has printed. */
  class Visitor {
    var numErrors: nat
    var errors: seq<SideError>

    ghost predicate Valid()
      reads this
    {
      numErrors == |errors|
    }

    constructor()
      ensures Valid() && errors == []
    {
      numErrors := 0;
      errors := [];
    }

    method VisitSchema(s: Schema)
      requires Valid()
      modifies this
      ensures Valid() && errors == old(errors) + SchemaErrors(s)
    {
      VisitNamespaces(s.body.namespaces);
    }

    method VisitNamespaces(nss: seq<NamespaceDecl>)
      requires Valid()
      modifies this
      ensures Valid() && errors == old(errors) + NamespaceListErrors(nss)
      decreases nss, 0
    {
      for i := 0 to |nss|
        invariant Valid() && errors == old(errors) + NamespaceListErrors(nss[..i])
      {
        assert nss[..i + 1][..i] == nss[..i];
        ghost var before := NamespaceListErrors(nss[..i]);
        VisitNamespace(nss[i]);
        AppendAssoc(old(errors), before, NamespaceErrors(nss[i]));
      }
      assert nss[..|nss|] == nss;
    }

    method VisitNamespace(ns: NamespaceDecl)
      requires Valid()
      modifies this
      ensures Valid() && errors == old(errors) + NamespaceErrors(ns)
      decreases ns, 2
    {
      VisitBody(ns.body);
    }

    /** A namespace's body: namespaces first, then functions. */
    method VisitBody(b: NamespaceBody)
      requires Valid()
      modifies this
      ensures Valid() && errors == old(errors) + BodyErrors(b)
      decreases b, 1
    {
      ghost var r0 := errors;
      VisitNamespaces(b.namespaces);
      VisitFunctions(b.functions);
      AppendAssoc(r0, NamespaceListErrors(b.namespaces), FunctionListErrors(b.functions));
    }

    method VisitFunctions(fs: seq<FunctionDecl>)
      requires Valid()
      modifies this
      ensures Valid() && errors == old(errors) + FunctionListErrors(fs)
      decreases fs, 0
    {
      for i := 0 to |fs|
        invariant Valid() && errors == old(errors) + FunctionListErrors(fs[..i])
      {
        assert fs[..i + 1][..i] == fs[..i];
        ghost var before := FunctionListErrors(fs[..i]);
        VisitFunction(fs[i]);
        AppendAssoc(old(errors), before, FunctionErrors(fs[i]));
      }
      assert fs[..|fs|] == fs;
    }

    /** A function with a body: every direct child not on the other side is
        an error; then the body is visited. */
    method VisitFunction(f: FunctionDecl)
      requires Valid()
      modifies this
      ensures Valid() && errors == old(errors) + FunctionErrors(f)
      decreases f, 2
    {
      if f.body.Some? {
        var body := f.body.value;
        var expected := Other(f.side);
        for i := 0 to |body.functions|
          invariant Valid() && errors == old(errors) + ChildErrors(f, body.functions[..i])
        {
          assert body.functions[..i + 1][..i] == body.functions[..i];
          var child := body.functions[i];
          if child.side != expected {
            ghost var before := ChildErrors(f, body.functions[..i]);
            numErrors := numErrors + 1;
            errors := errors + [SideError(child, expected, f)];
            AppendAssoc(old(errors), before, [SideError(child, expected, f)]);
          }
        }
        assert body.functions[..|body.functions|] == body.functions;
        VisitBody(body);
        AppendAssoc(old(errors), ChildErrors(f, body.functions), BodyErrors(body));
      }
    }
  }

  /** `check`: Ok exactly when every root namespace alternates, otherwise
      the number of misplaced functions. */
  method Check(s: Schema) returns (r: Result<(), CheckError>)
    ensures r.Ok? <==> AllNamespacesAlternate(s.body.namespaces)
    ensures r.Err? ==> r.error.numErrors == |SchemaErrors(s)| > 0
  {
    var v := new Visitor();
    v.VisitSchema(s);
    SchemaClean(s);
    if v.numErrors > 0 {
      r := Err(CheckError(v.numErrors));
    } else {
      r := Ok(());
    }
  }
}
