/** The redefinition checker of the first syntax tree (src/checker/noredef.rs).
    Only the module's top-level namespaces are compared; the walk through
    nested namespaces, structs, functions and fields reports nothing. */
module LegacyNoRedef {
  import opened Common
  import opened LegacyAst
  import opened Dupes

  /** One printed pair: "namespace <name> redefined" at `ns`, and
      "first definition was here" at `first`. */
  datatype Redefined = Redefined(ns: NamespaceDecl, first: NamespaceDecl)

  datatype CheckError = CheckError(numErrors: nat)

  function Message(r: Redefined): string
  {
    "error: namespace " + r.ns.name + " redefined"
  }

  const FirstDefinitionNote: string := "first definition was here"

  function Names(nss: seq<NamespaceDecl>): (r: seq<string>)
    ensures |r| == |nss| && forall k :: 0 <= k < |nss| ==> r[k] == nss[k].name
  {
    seq(|nss|, k requires 0 <= k < |nss| => nss[k].name)
  }

  lemma NamesPrefix(nss: seq<NamespaceDecl>, n: nat)
    requires n <= |nss|
    ensures Names(nss[..n]) == Names(nss)[..n]
  {
  }

  /** What the module-level loop prints, in order: for each namespace whose
      name the map already holds, a report against the namespace it held. */
  function ModuleReports(nss: seq<NamespaceDecl>): seq<Redefined>
  {
    if nss == [] then []
    else
      var prev := nss[..|nss| - 1];
      var seen := LastSeen(Names(prev));
      var last := nss[|nss| - 1];
      ModuleReports(prev) + (if last.name in seen then [Redefined(last, prev[seen[last.name]])] else [])
  }

  /** One report per redefinition among the top-level names. */
  lemma {:induction false} ModuleReportsCount(nss: seq<NamespaceDecl>)
    ensures |ModuleReports(nss)| == |Redefinitions(Names(nss))|
  {
    if nss != [] {
      ModuleReportsCount(nss[..|nss| - 1]);
      NamesPrefix(nss, |nss| - 1);
    }
  }

  /** Each report names a namespace and an earlier one of the same name. */
  lemma {:induction false} ModuleReportsPair(nss: seq<NamespaceDecl>, r: Redefined)
    requires r in ModuleReports(nss)
    ensures r.ns.name == r.first.name
    ensures exists i, j :: 0 <= j < i < |nss| && r.ns == nss[i] && r.first == nss[j]
  {
    var prev := nss[..|nss| - 1];
    if r in ModuleReports(prev) {
      ModuleReportsPair(prev, r);
      var i, j :| 0 <= j < i < |prev| && r.ns == prev[i] && r.first == prev[j];
      assert r.ns == nss[i] && r.first == nss[j];
    } else {
      var seen := LastSeen(Names(prev));
      assert r == Redefined(nss[|nss| - 1], prev[seen[nss[|nss| - 1].name]]);
    }
  }

  /** The error count is the number of top-level namespaces minus their
      number of distinct names, and it is zero exactly when the names are
      distinct. */
  lemma ModuleReportsMeaning(nss: seq<NamespaceDecl>)
    ensures |ModuleReports(nss)| == |nss| - |set k | 0 <= k < |nss| :: nss[k].name|
    ensures ModuleReports(nss) == [] <==> Distinct(Names(nss))
  {
    var names := Names(nss);
    ModuleReportsCount(nss);
    RedefinitionCount(names);
    LastSeenKeys(names);
    NoRedefinitionsIffDistinct(names);
    assert (set k | 0 <= k < |names| :: names[k]) == (set k | 0 <= k < |nss| :: nss[k].name);
  }

  /** The visitor's error counter and what it has printed. */
  class Visitor {
    var numErrors: nat
    var reports: seq<Redefined>

    ghost predicate Valid()
      reads this
    {
      numErrors == |reports|
    }

    constructor()
      ensures Valid() && reports == []
    {
      numErrors := 0;
      reports := [];
    }

    /** The module visit: the duplicate loop over the top-level namespaces,
        then a walk into each of them. */
    method VisitModule(m: Module)
      requires Valid()
      modifies this
      ensures Valid() && reports == old(reports) + ModuleReports(m.namespaces)
    {
      var nss := m.namespaces;
      var seen: map<string, nat> := map[];
      for i := 0 to |nss|
        invariant Valid()
        invariant seen == LastSeen(Names(nss[..i]))
        invariant reports == old(reports) + ModuleReports(nss[..i])
      {
        ModuleStep(nss, i);
        var name := nss[i].name;
        if name in seen {
          ghost var before := ModuleReports(nss[..i]);
          numErrors := numErrors + 1;
          reports := reports + [Redefined(nss[i], nss[seen[name]])];
          AppendAssoc(old(reports), before, [Redefined(nss[i], nss[seen[name]])]);
        }
        seen := seen[name := i];
      }
      assert nss[..|nss|] == nss;
      ghost var afterLoop := reports;
      for i := 0 to |nss|
        invariant Valid() && reports == afterLoop
      {
        VisitNamespace(nss[i]);
      }
    }

    /** Namespaces, structs and functions below the top level are walked
        without a check of their own. */
    method VisitNamespace(ns: NamespaceDecl)
      requires Valid()
      modifies this
      ensures Valid() && reports == old(reports)
      decreases ns
    {
      for i := 0 to |ns.namespaces|
        invariant Valid() && reports == old(reports)
      {
        VisitNamespace(ns.namespaces[i]);
      }
      for i := 0 to |ns.structs|
        invariant Valid() && reports == old(reports)
      {
        VisitStruct(ns.structs[i]);
      }
      for i := 0 to |ns.functions|
        invariant Valid() && reports == old(reports)
      {
        VisitFunction(ns.functions[i]);
      }
    }

    method VisitStruct(s: StructDecl)
      requires Valid()
      modifies this
      ensures Valid() && reports == old(reports)
    {
      for i := 0 to |s.fields|
        invariant Valid() && reports == old(reports)
      {
        VisitField(s.fields[i]);
      }
    }

    method VisitFunction(f: FunctionDecl)
      requires Valid()
      modifies this
      ensures Valid() && reports == old(reports)
    {
      for i := 0 to |f.params|
        invariant Valid() && reports == old(reports)
      {
        VisitField(f.params[i]);
      }
      for i := 0 to |f.results|
        invariant Valid() && reports == old(reports)
      {
        VisitField(f.results[i]);
      }
    }

    /** A field's visit does nothing. */
    method VisitField(f: Field)
      requires Valid()
      modifies this
      ensures Valid() && reports == old(reports)
    {
    }
  }

  /** One more namespace: the map gains its name, and a report is added when
      the map already held the name. */
  lemma ModuleStep(nss: seq<NamespaceDecl>, i: nat)
    requires i < |nss|
    ensures LastSeen(Names(nss[..i + 1])) == LastSeen(Names(nss[..i]))[nss[i].name := i]
    ensures var seen := LastSeen(Names(nss[..i]));
      ModuleReports(nss[..i + 1])
      == ModuleReports(nss[..i])
        + (if nss[i].name in seen then [Redefined(nss[i], nss[seen[nss[i].name]])] else [])
  {
    assert nss[..i + 1][..i] == nss[..i];
    NamesPrefix(nss[..i + 1], i);
  }

  /** `check`: Ok exactly when the top-level namespace names are distinct,
      otherwise the number of redefinitions. */
  method Check(m: Module) returns (r: Result<(), CheckError>)
    ensures r.Ok? <==> Distinct(Names(m.namespaces))
    ensures r.Err? ==> r.error.numErrors == |m.namespaces| - |set k | 0 <= k < |m.namespaces| :: m.namespaces[k].name| > 0
  {
    var v := new Visitor();
    v.VisitModule(m);
    ModuleReportsMeaning(m.namespaces);
    if v.numErrors > 0 {
      r := Err(CheckError(v.numErrors));
    } else {
      r := Ok(());
    }
  }
}
