/** The redefinition checker of the older generation
    (lavish/src/checker/noredef.rs).  A visitor walks the schema and, for
    each list of named things, counts and reports every item whose name
    already appeared earlier in that list.  The printed diagnostics are
    recorded in `reports`, in printing order. */
module LavishNoRedef {
  import opened Common
  import opened LavishAst
  import opened Dupes

  /** One printed pair of diagnostics: "<kind> <name> redefined" at `name`,
      and "first definition was here" at `first`. */
  datatype Redefined = Redefined(kind: NameKind, name: Identifier, first: Identifier)

  /** The kind of thing a list names, as the message spells it. */
  datatype NameKind = NamespaceName | StructName | FunctionName | FieldName | ParamName | ResultName

  function KindText(k: NameKind): string
  {
    match k
    case NamespaceName => "namespace"
    case StructName => "struct"
    case FunctionName => "function"
    case FieldName => "field"
    case ParamName => "param"
    case ResultName => "result"
  }

  datatype CheckError = CheckError(numErrors: nat)

  /** The names' texts, which the map is keyed by. */
  function Texts(ids: seq<Identifier>): (r: seq<string>)
    ensures |r| == |ids| && forall k :: 0 <= k < |ids| ==> r[k] == ids[k].text
  {
    seq(|ids|, k requires 0 <= k < |ids| => ids[k].text)
  }

  lemma TextsPrefix(ids: seq<Identifier>, n: nat)
    requires n <= |ids|
    ensures Texts(ids[..n]) == Texts(ids)[..n]
  {
  }

  /** The error line's text, without its colouring. */
  function Message(r: Redefined): string
  {
    "error: " + KindText(r.kind) + " " + r.name.text + " redefined"
  }

  const FirstDefinitionNote: string := "first definition was here"

  function NamespaceIds(nss: seq<NamespaceDecl>): (r: seq<Identifier>)
    ensures |r| == |nss| && forall k :: 0 <= k < |nss| ==> r[k] == nss[k].name
  {
    seq(|nss|, k requires 0 <= k < |nss| => nss[k].name)
  }

  function StructIds(ss: seq<StructDecl>): (r: seq<Identifier>)
    ensures |r| == |ss| && forall k :: 0 <= k < |ss| ==> r[k] == ss[k].name
  {
    seq(|ss|, k requires 0 <= k < |ss| => ss[k].name)
  }

  function FunctionIds(fs: seq<FunctionDecl>): (r: seq<Identifier>)
    ensures |r| == |fs| && forall k :: 0 <= k < |fs| ==> r[k] == fs[k].name
  {
    seq(|fs|, k requires 0 <= k < |fs| => fs[k].name)
  }

  function FieldIds(fs: seq<Field>): (r: seq<Identifier>)
    ensures |r| == |fs| && forall k :: 0 <= k < |fs| ==> r[k] == fs[k].name
  {
    seq(|fs|, k requires 0 <= k < |fs| => fs[k].name)
  }

  /** What `check_dupes` prints for one list: for every item whose name is
      already in the map, a report against the item the map held, which is
      the latest earlier one of that name. */
  function DupeReports(kind: NameKind, ids: seq<Identifier>): (r: seq<Redefined>)
  {
    if ids == [] then []
    else
      var prev := ids[..|ids| - 1];
      var seen := LastSeen(Texts(prev));
      var t := ids[|ids| - 1].text;
      DupeReports(kind, prev) + (if t in seen then [Redefined(kind, ids[|ids| - 1], prev[seen[t]])] else [])
  }

  /** One report per redefinition. */
  lemma {:induction false} DupeReportsCount(kind: NameKind, ids: seq<Identifier>)
    ensures |DupeReports(kind, ids)| == |Redefinitions(Texts(ids))|
  {
    if ids != [] {
      DupeReportsCount(kind, ids[..|ids| - 1]);
      TextsPrefix(ids, |ids| - 1);
    }
  }

  /** The number of errors a list adds is its length minus its number of
      distinct names. */
  lemma DupeReportsCountNames(kind: NameKind, ids: seq<Identifier>)
    ensures |DupeReports(kind, ids)| == |ids| - |set k | 0 <= k < |ids| :: ids[k].text|
  {
    var names := Texts(ids);
    DupeReportsCount(kind, ids);
    RedefinitionCount(names);
    LastSeenKeys(names);
    assert (set k | 0 <= k < |names| :: names[k]) == (set k | 0 <= k < |ids| :: ids[k].text);
  }

  /** A list adds no error exactly when its names are distinct. */
  lemma DupeReportsClean(kind: NameKind, ids: seq<Identifier>)
    ensures DupeReports(kind, ids) == [] <==> Distinct(Texts(ids))
  {
    DupeReportsCount(kind, ids);
    NoRedefinitionsIffDistinct(Texts(ids));
  }

  /** The report of a redefinition names the latest earlier item with that
      name. */
  lemma DupeReportsPointBack(kind: NameKind, ids: seq<Identifier>, n: nat)
    requires 0 < n <= |ids|
    requires ids[n - 1].text in LastSeen(Texts(ids[..n - 1]))
    ensures var j := LastSeen(Texts(ids[..n - 1]))[ids[n - 1].text];
      && j < n - 1 && ids[j].text == ids[n - 1].text
      && (forall k :: j < k < n - 1 ==> ids[k].text != ids[n - 1].text)
      && Redefined(kind, ids[n - 1], ids[j]) in DupeReports(kind, ids[..n])
  {
    var prev := ids[..n - 1];
    var t := ids[n - 1].text;
    var j := LastSeen(Texts(prev))[t];
    assert j < n - 1 && prev[j] == ids[j] && Texts(prev)[j] == t;
    forall k | j < k < n - 1
      ensures ids[k].text != t
    {
      LastSeenIsLatest(Texts(prev), t, k);
    }
    var q := ids[..n];
    assert q[..n - 1] == prev && q[n - 1] == ids[n - 1];
    assert DupeReports(kind, q) == DupeReports(kind, prev) + [Redefined(kind, ids[n - 1], prev[j])];
  }

  /** The namespace visit's output, regrouped in the order it is printed. */
  lemma NamespaceReportsSplit(r0: seq<Redefined>, ns: NamespaceDecl)
    ensures r0 + NamespaceReports(ns)
      == r0 + DupeReports(NamespaceName, NamespaceIds(ns.namespaces)) + NamespaceListReports(ns.namespaces)
        + DupeReports(StructName, StructIds(ns.structs)) + StructListReports(ns.structs)
        + DupeReports(FunctionName, FunctionIds(ns.functions)) + FunctionListReports(ns.functions)
  {
    var a := DupeReports(NamespaceName, NamespaceIds(ns.namespaces));
    var b := NamespaceListReports(ns.namespaces);
    var c := DupeReports(StructName, StructIds(ns.structs));
    var d := StructListReports(ns.structs);
    var e := DupeReports(FunctionName, FunctionIds(ns.functions));
    var f := FunctionListReports(ns.functions);
    AppendAssoc(r0, a + b + c + d + e, f);
    AppendAssoc(r0, a + b + c + d, e);
    AppendAssoc(r0, a + b + c, d);
    AppendAssoc(r0, a + b, c);
    AppendAssoc(r0, a, b);
  }

  // What the visit of each node prints, in order.

  function NamespaceReports(ns: NamespaceDecl): seq<Redefined>
    decreases ns, 1
  {
    DupeReports(NamespaceName, NamespaceIds(ns.namespaces)) + NamespaceListReports(ns.namespaces)
    + DupeReports(StructName, StructIds(ns.structs)) + StructListReports(ns.structs)
    + DupeReports(FunctionName, FunctionIds(ns.functions)) + FunctionListReports(ns.functions)
  }

  function NamespaceListReports(nss: seq<NamespaceDecl>): seq<Redefined>
    decreases nss, 0
  {
    if nss == [] then []
    else NamespaceListReports(nss[..|nss| - 1]) + NamespaceReports(nss[|nss| - 1])
  }

  function StructReports(s: StructDecl): seq<Redefined>
  {
    DupeReports(FieldName, FieldIds(s.fields))
  }

  function StructListReports(ss: seq<StructDecl>): seq<Redefined>
  {
    if ss == [] then [] else StructListReports(ss[..|ss| - 1]) + StructReports(ss[|ss| - 1])
  }

  function FunctionReports(f: FunctionDecl): seq<Redefined>
  {
    DupeReports(ParamName, FieldIds(f.params)) + DupeReports(ResultName, FieldIds(f.results))
  }

  function FunctionListReports(fs: seq<FunctionDecl>): seq<Redefined>
  {
    if fs == [] then [] else FunctionListReports(fs[..|fs| - 1]) + FunctionReports(fs[|fs| - 1])
  }

  /** The schema visit checks only the root's namespaces for duplicates
      (the root's own structs and functions are not compared), then visits
      each of those namespaces. */
  function SchemaReports(s: Schema): seq<Redefined>
  {
    DupeReports(NamespaceName, NamespaceIds(s.body.namespaces)) + NamespaceListReports(s.body.namespaces)
  }

  // The independent reading: which schemas are free of redefinitions.

  predicate StructWellNamed(s: StructDecl)
  {
    Distinct(Texts(FieldIds(s.fields)))
  }

  predicate AllStructsWellNamed(ss: seq<StructDecl>)
  {
    forall k :: 0 <= k < |ss| ==> StructWellNamed(ss[k])
  }

  predicate FunctionWellNamed(f: FunctionDecl)
  {
    Distinct(Texts(FieldIds(f.params))) && Distinct(Texts(FieldIds(f.results)))
  }

  /** Within a namespace, child namespaces, structs and functions must each
      have distinct names (a struct and a function may share one), as must
      each struct's fields and each function's params and results. */
  predicate WellNamed(ns: NamespaceDecl)
    decreases ns, 1
  {
    && Distinct(Texts(NamespaceIds(ns.namespaces)))
    && Distinct(Texts(StructIds(ns.structs)))
    && Distinct(Texts(FunctionIds(ns.functions)))
    && AllWellNamed(ns.namespaces)
    && (forall k :: 0 <= k < |ns.structs| ==> StructWellNamed(ns.structs[k]))
    && (forall k :: 0 <= k < |ns.functions| ==> FunctionWellNamed(ns.functions[k]))
  }

  /** Every namespace of the list is well named. */
  predicate AllWellNamed(nss: seq<NamespaceDecl>)
    decreases nss, 0
  {
    nss == [] || (AllWellNamed(nss[..|nss| - 1]) && WellNamed(nss[|nss| - 1]))
  }

  predicate SchemaWellNamed(s: Schema)
  {
    Distinct(Texts(NamespaceIds(s.body.namespaces))) && AllWellNamed(s.body.namespaces)
  }

  lemma {:induction false} StructListClean(ss: seq<StructDecl>)
    ensures StructListReports(ss) == [] <==> forall k :: 0 <= k < |ss| ==> StructWellNamed(ss[k])
  {
    if ss != [] {
      var prev, last := ss[..|ss| - 1], ss[|ss| - 1];
      StructListClean(prev);
      assert StructReports(last) == [] <==> StructWellNamed(last) by {
        DupeReportsClean(FieldName, FieldIds(last.fields));
      }
      assert StructListReports(ss) == StructListReports(prev) + StructReports(last);
      assert StructListReports(ss) == [] <==> StructListReports(prev) == [] && StructReports(last) == [] by {
        var x, y := StructListReports(prev), StructReports(last);
        assert |x + y| == |x| + |y|;
      }
      StructsWellNamedSplit(ss);
    }
  }

  /** All structs of a list are well named exactly when all but the last
      are and the last is. */
  lemma StructsWellNamedSplit(ss: seq<StructDecl>)
    requires ss != []
    ensures AllStructsWellNamed(ss) <==> AllStructsWellNamed(ss[..|ss| - 1]) && StructWellNamed(ss[|ss| - 1])
  {
    var prev := ss[..|ss| - 1];
    assert forall k :: 0 <= k < |prev| ==> prev[k] == ss[k];
  }

  lemma FunctionClean(f: FunctionDecl)
    ensures FunctionReports(f) == [] <==> FunctionWellNamed(f)
  {
    DupeReportsClean(ParamName, FieldIds(f.params));
    DupeReportsClean(ResultName, FieldIds(f.results));
  }

  lemma {:induction false} FunctionListClean(fs: seq<FunctionDecl>)
    ensures FunctionListReports(fs) == [] <==> forall k :: 0 <= k < |fs| ==> FunctionWellNamed(fs[k])
  {
    if fs != [] {
      var prev, last := fs[..|fs| - 1], fs[|fs| - 1];
      FunctionListClean(prev);
      FunctionClean(last);
      assert FunctionListReports(fs) == FunctionListReports(prev) + FunctionReports(last);
      assert FunctionListReports(fs) == [] <==> FunctionListReports(prev) == [] && FunctionReports(last) == [] by {
        var x, y := FunctionListReports(prev), FunctionReports(last);
        assert |x + y| == |x| + |y|;
      }
      FunctionsWellNamedSplit(fs);
    }
  }

  predicate AllFunctionsWellNamed(fs: seq<FunctionDecl>)
  {
    forall k :: 0 <= k < |fs| ==> FunctionWellNamed(fs[k])
  }

  /** All functions of a list are well named exactly when all but the last
      are and the last is. */
  lemma FunctionsWellNamedSplit(fs: seq<FunctionDecl>)
    requires fs != []
    ensures AllFunctionsWellNamed(fs) <==> AllFunctionsWellNamed(fs[..|fs| - 1]) && FunctionWellNamed(fs[|fs| - 1])
  {
    var prev := fs[..|fs| - 1];
    assert forall k :: 0 <= k < |prev| ==> prev[k] == fs[k];
  }


  /** A namespace's visit prints nothing exactly when it is well named. */
  lemma {:induction false} NamespaceClean(ns: NamespaceDecl)
    ensures NamespaceReports(ns) == [] <==> WellNamed(ns)
    decreases ns, 1
  {
    DupeReportsClean(NamespaceName, NamespaceIds(ns.namespaces));
    DupeReportsClean(StructName, StructIds(ns.structs));
    DupeReportsClean(FunctionName, FunctionIds(ns.functions));
    NamespaceListClean(ns.namespaces);
    StructListClean(ns.structs);
    FunctionListClean(ns.functions);
  }

  lemma {:induction false} NamespaceListClean(nss: seq<NamespaceDecl>)
    ensures NamespaceListReports(nss) == [] <==> AllWellNamed(nss)
    decreases nss, 0
  {
    if nss != [] {
      var prev := nss[..|nss| - 1];
      NamespaceListClean(prev);
      NamespaceClean(nss[|nss| - 1]);
    }
  }

  /** `AllWellNamed` holds exactly when each namespace of the list is well
      named. */
  lemma {:induction false} AllWellNamedEvery(nss: seq<NamespaceDecl>)
    ensures AllWellNamed(nss) <==> forall k :: 0 <= k < |nss| ==> WellNamed(nss[k])
  {
    if nss != [] {
      var prev := nss[..|nss| - 1];
      AllWellNamedEvery(prev);
      if AllWellNamed(nss) {
        forall k | 0 <= k < |nss|
          ensures WellNamed(nss[k])
        {
          if k < |prev| {
            assert nss[k] == prev[k];
          }
        }
      } else if WellNamed(nss[|nss| - 1]) {
        var k :| 0 <= k < |prev| && !WellNamed(prev[k]);
        assert nss[k] == prev[k];
      }
    }
  }

  /** The whole schema passes exactly when it is well named. */
  lemma SchemaClean(s: Schema)
    ensures SchemaReports(s) == [] <==> SchemaWellNamed(s)
  {
    DupeReportsClean(NamespaceName, NamespaceIds(s.body.namespaces));
    NamespaceListClean(s.body.namespaces);
  }

  /** One more item: the map gains its name, and a report is added when the
      map already held the name. */
  lemma CheckStep(kind: NameKind, ids: seq<Identifier>, i: nat)
    requires i < |ids|
    ensures LastSeen(Texts(ids[..i + 1])) == LastSeen(Texts(ids[..i]))[ids[i].text := i]
    ensures var seen := LastSeen(Texts(ids[..i]));
      DupeReports(kind, ids[..i + 1])
      == DupeReports(kind, ids[..i])
        + (if ids[i].text in seen then [Redefined(kind, ids[i], ids[seen[ids[i].text]])] else [])
  {
    assert ids[..i + 1][..i] == ids[..i];
    TextsPrefix(ids[..i + 1], i);
  }

  /** The visitor: its error counter and what it has printed so far. */
  class Visitor {
    var numErrors: nat
    var reports: seq<Redefined>

    ghost predicate Valid()
      reads this
    {
      numErrors == |reports|
    }

    constructor()
      ensures Valid() && reports == []
    {
      numErrors := 0;
      reports := [];
    }

    /** `check_dupes` */
    method CheckDupes(kind: NameKind, ids: seq<Identifier>)
      requires Valid()
      modifies this
      ensures Valid() && reports == old(reports) + DupeReports(kind, ids)
    {
      var seen: map<string, nat> := map[];
      for i := 0 to |ids|
        invariant Valid()
        invariant seen == LastSeen(Texts(ids[..i]))
        invariant reports == old(reports) + DupeReports(kind, ids[..i])
      {
        CheckStep(kind, ids, i);
        var t := ids[i].text;
        ghost var before := DupeReports(kind, ids[..i]);
        if t in seen {
          var r := Redefined(kind, ids[i], ids[seen[t]]);
          AppendAssoc(old(reports), before, [r]);
          numErrors := numErrors + 1;
          reports := reports + [r];
        } else {
          assert before + [] == before;
        }
        seen := seen[t := i];
      }
      assert ids[..|ids|] == ids;
    }

    method VisitNamespace(ns: NamespaceDecl)
      requires Valid()
      modifies this
      ensures Valid() && reports == old(reports) + NamespaceReports(ns)
      decreases ns, 1
    {
      ghost var r0 := reports;
      CheckDupes(NamespaceName, NamespaceIds(ns.namespaces));
      VisitNamespaces(ns.namespaces);
      CheckDupes(StructName, StructIds(ns.structs));
      VisitStructs(ns.structs);
      CheckDupes(FunctionName, FunctionIds(ns.functions));
      VisitFunctions(ns.functions);
      NamespaceReportsSplit(r0, ns);
    }

    /** The loop over a namespace's child namespaces. */
    method VisitNamespaces(nss: seq<NamespaceDecl>)
      requires Valid()
      modifies this
      ensures Valid() && reports == old(reports) + NamespaceListReports(nss)
      decreases nss, 0
    {
      for i := 0 to |nss|
        invariant Valid() && reports == old(reports) + NamespaceListReports(nss[..i])
      {
        assert nss[..i + 1][..i] == nss[..i];
        ghost var before := NamespaceListReports(nss[..i]);
        VisitNamespace(nss[i]);
        AppendAssoc(old(reports), before, NamespaceReports(nss[i]));
      }
      assert nss[..|nss|] == nss;
    }

    /** The loop over a namespace's structs: each struct's fields. */
    method VisitStructs(ss: seq<StructDecl>)
      requires Valid()
      modifies this
      ensures Valid() && reports == old(reports) + StructListReports(ss)
    {
      for i := 0 to |ss|
        invariant Valid() && reports == old(reports) + StructListReports(ss[..i])
      {
        assert ss[..i + 1][..i] == ss[..i];
        ghost var before := StructListReports(ss[..i]);
        CheckDupes(FieldName, FieldIds(ss[i].fields));
        AppendAssoc(old(reports), before, StructReports(ss[i]));
      }
      assert ss[..|ss|] == ss;
    }

    /** The loop over a namespace's functions. */
    method VisitFunctions(fs: seq<FunctionDecl>)
      requires Valid()
      modifies this
      ensures Valid() && reports == old(reports) + FunctionListReports(fs)
    {
      for i := 0 to |fs|
        invariant Valid() && reports == old(reports) + FunctionListReports(fs[..i])
      {
        assert fs[..i + 1][..i] == fs[..i];
        ghost var before := FunctionListReports(fs[..i]);
        VisitFunction(fs[i]);
        AppendAssoc(old(reports), before, FunctionReports(fs[i]));
      }
      assert fs[..|fs|] == fs;
    }

    method VisitFunction(f: FunctionDecl)
      requires Valid()
      modifies this
      ensures Valid() && reports == old(reports) + FunctionReports(f)
    {
      ghost var r0 := reports;
      CheckDupes(ParamName, FieldIds(f.params));
      CheckDupes(ResultName, FieldIds(f.results));
      AppendAssoc(r0, DupeReports(ParamName, FieldIds(f.params)), DupeReports(ResultName, FieldIds(f.results)));
    }

    method VisitSchema(s: Schema)
      requires Valid()
      modifies this
      ensures Valid() && reports == old(reports) + SchemaReports(s)
    {
      ghost var r0 := reports;
      CheckDupes(NamespaceName, NamespaceIds(s.body.namespaces));
      VisitNamespaces(s.body.namespaces);
      AppendAssoc(r0, DupeReports(NamespaceName, NamespaceIds(s.body.namespaces)), NamespaceListReports(s.body.namespaces));
    }
  }

  /** `check`: Ok when the visit found nothing, otherwise the error count. */
  method Check(s: Schema) returns (r: Result<(), CheckError>)
    ensures r.Ok? <==> SchemaWellNamed(s)
    ensures r.Err? ==> r.error.numErrors == |SchemaReports(s)| > 0
  {
    var v := new Visitor();
    v.VisitSchema(s);
    SchemaClean(s);
    if v.numErrors > 0 {
      r := Err(CheckError(v.numErrors));
    } else {
      r := Ok(());
    }
  }
}
