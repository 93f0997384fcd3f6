/** Functions and namespaces together with the stack of enclosing frames
    they were found under (src/ast/anchored.rs).  The Rust walks feed each
    anchored function to a callback; here each walk returns the sequence of
    what it would feed, in the same order. */
module Anchored {
  import opened Common
  import opened NewAst

  /** The frames the schema walks push, and the named frame the code
      generator pushes for its `client` and `server` modules. */
  datatype Frame =
    | FunctionFrame(fun: FunctionDecl)
    | NamespaceFrame(ns: NamespaceDecl)
    | SyntheticFrame(name: string)

  /** `Frame::name` */
  function FrameName(f: Frame): string
  {
    match f
    case FunctionFrame(fun) => fun.name.text
    case NamespaceFrame(ns) => ns.name.text
    case SyntheticFrame(name) => name
  }

  datatype Stack = Stack(frames: seq<Frame>)

  /** A value together with a copy of the stack it was found under. */
  datatype Anchored<T> = Anchored(inner: T, stack: Stack)

  /** `Stack::new` */
  function NewStack(): (r: Stack)
    ensures |r.frames| == 0
  {
    Stack([])
  }

  /** `Stack::push`: a new stack one frame taller; the receiver is a value
      and stays as it was. */
  function Push(st: Stack, frame: Frame): (r: Stack)
    ensures |r.frames| == |st.frames| + 1
    ensures r.frames[..|st.frames|] == st.frames && r.frames[|st.frames|] == frame
  {
    Stack(st.frames + [frame])
  }

  /** `Stack::anchor` */
  function Anchor<T>(st: Stack, inner: T): (r: Anchored<T>)
    ensures r.stack == st && r.inner == inner
  {
    Anchored(inner, st)
  }

  /** `Stack::names`: the frames' names, bottom first. */
  function Names(st: Stack): (r: seq<string>)
    ensures |r| == |st.frames|
    ensures forall k :: 0 <= k < |r| ==> r[k] == FrameName(st.frames[k])
    decreases |st.frames|
  {
    if st.frames == [] then []
    else Names(Stack(st.frames[..|st.frames| - 1])) + [FrameName(st.frames[|st.frames| - 1])]
  }

  /** Pushing a frame adds its name at the top. */
  lemma NamesPush(st: Stack, frame: Frame)
    ensures Names(Push(st, frame)) == Names(st) + [FrameName(frame)]
  {
    assert Push(st, frame).frames[..|st.frames|] == st.frames;
  }

  /** `Anchored<&FunctionDecl>::names`: the stack's names, then the
      function's own. */
  function FunNames(a: Anchored<FunctionDecl>): (r: seq<string>)
    ensures |r| == |a.stack.frames| + 1
    ensures r[..|a.stack.frames|] == Names(a.stack) && r[|a.stack.frames|] == a.inner.name.text
  {
    Names(a.stack) + [a.inner.name.text]
  }

  /** `Anchored<&FunctionDecl>::method`: the names joined with ".". */
  function Method(a: Anchored<FunctionDecl>): string
  {
    Join(FunNames(a), ".")
  }

  /** When no name contains a dot, the method string splits back into the
      frames' names and the function's name. */
  lemma MethodSplits(a: Anchored<FunctionDecl>)
    requires forall k :: 0 <= k < |a.stack.frames| ==> '.' !in FrameName(a.stack.frames[k])
    requires '.' !in a.inner.name.text
    ensures Split(Method(a), '.') == FunNames(a)
  {
    var names := FunNames(a);
    forall k | 0 <= k < |names|
      ensures '.' !in names[k]
    {
      if k < |a.stack.frames| {
        assert names[k] == names[..|a.stack.frames|][k];
      }
    }
    JoinSplit(names, '.');
  }

  /** A function at the top of a schema is called by its own name. */
  lemma MethodAtTop(f: FunctionDecl)
    ensures Method(Anchor(NewStack(), f)) == f.name.text
  {
    assert FunNames(Anchor(NewStack(), f)) == [f.name.text];
  }

  /** `Anchored<&NamespaceBody>::for_each_fun`: the body's own functions,
      anchored at the body's stack. */
  function AnchorAll(st: Stack, fs: seq<FunctionDecl>): (r: seq<Anchored<FunctionDecl>>)
    ensures |r| == |fs|
    ensures forall k :: 0 <= k < |fs| ==> r[k] == Anchored(fs[k], st)
  {
    if fs == [] then [] else [Anchor(st, fs[0])] + AnchorAll(st, fs[1..])
  }

  /** `Anchored<&NamespaceBody>::for_each_namespace`: each child body,
      anchored under the stack plus that namespace's frame. */
  function ChildBodies(st: Stack, nss: seq<NamespaceDecl>): (r: seq<Anchored<NamespaceBody>>)
    ensures |r| == |nss|
    ensures forall k :: 0 <= k < |nss| ==> r[k] == Anchored(nss[k].body, Push(st, NamespaceFrame(nss[k])))
  {
    if nss == [] then [] else [Anchor(Push(st, NamespaceFrame(nss[0])), nss[0].body)] + ChildBodies(st, nss[1..])
  }

  /** `for_each_fun_of_schema` on a body: for each local function, first the
      functions of its body, then the function itself; then each child
      namespace in turn. */
  function SchemaFuns(st: Stack, b: NamespaceBody): seq<Anchored<FunctionDecl>>
    decreases b, 1
  {
    SchemaFunList(st, b.functions) + SchemaNamespaceList(st, b.namespaces)
  }

  function SchemaFunList(st: Stack, fs: seq<FunctionDecl>): seq<Anchored<FunctionDecl>>
    decreases fs, 0
  {
    if fs == [] then []
    else FunOfSchema(st, fs[0]) + [Anchor(st, fs[0])] + SchemaFunList(st, fs[1..])
  }

  function SchemaNamespaceList(st: Stack, nss: seq<NamespaceDecl>): seq<Anchored<FunctionDecl>>
    decreases nss, 0
  {
    if nss == [] then []
    else SchemaFuns(Push(st, NamespaceFrame(nss[0])), nss[0].body) + SchemaNamespaceList(st, nss[1..])
  }

  /** `for_each_fun_of_schema` on a function: the functions of its body, if
      it has one, under the stack plus the function's own frame. */
  function FunOfSchema(st: Stack, f: FunctionDecl): seq<Anchored<FunctionDecl>>
    decreases f, 2
  {
    if f.body.Some? then SchemaFuns(Push(st, FunctionFrame(f)), f.body.value) else []
  }

  /** `for_each_fun_of_interface`: the local functions, then each child
      namespace's; function bodies are not entered. */
  function InterfaceFuns(st: Stack, b: NamespaceBody): seq<Anchored<FunctionDecl>>
    decreases b, 1
  {
    AnchorAll(st, b.functions) + InterfaceNamespaceList(st, b.namespaces)
  }

  function InterfaceNamespaceList(st: Stack, nss: seq<NamespaceDecl>): seq<Anchored<FunctionDecl>>
    decreases nss, 0
  {
    if nss == [] then []
    else InterfaceFuns(Push(st, NamespaceFrame(nss[0])), nss[0].body) + InterfaceNamespaceList(st, nss[1..])
  }

  /** `inner` is `st` with zero or more frames pushed on top. */
  predicate Under(st: Stack, inner: Stack)
  {
    |st.frames| <= |inner.frames| && inner.frames[..|st.frames|] == st.frames
  }

  /** `inner` is `st` with only namespace frames pushed on top. */
  predicate UnderNamespaces(st: Stack, inner: Stack)
  {
    Under(st, inner) && forall k :: |st.frames| <= k < |inner.frames| ==> inner.frames[k].NamespaceFrame?
  }

  /** A stack under a namespace frame pushed on `st` is under `st`. */
  lemma UnderPush(st: Stack, frame: Frame, inner: Stack)
    requires Under(Push(st, frame), inner)
    ensures Under(st, inner) && inner.frames[|st.frames|] == frame
    ensures UnderNamespaces(Push(st, frame), inner) && frame.NamespaceFrame? ==> UnderNamespaces(st, inner)
  {
    assert inner.frames[..|st.frames|] == inner.frames[..|st.frames| + 1][..|st.frames|];
  }

  /** The interface walk never enters a function body: every function it
      visits sits under the starting stack plus namespace frames only. */
  lemma {:induction false} InterfaceStaysInNamespaces(st: Stack, b: NamespaceBody)
    ensures forall x :: x in InterfaceFuns(st, b) ==> UnderNamespaces(st, x.stack)
    decreases b, 1
  {
    InterfaceListStaysInNamespaces(st, b.namespaces);
  }

  lemma {:induction false} InterfaceListStaysInNamespaces(st: Stack, nss: seq<NamespaceDecl>)
    ensures forall x :: x in InterfaceNamespaceList(st, nss) ==> UnderNamespaces(st, x.stack)
    decreases nss, 0
  {
    if nss != [] {
      var child := Push(st, NamespaceFrame(nss[0]));
      InterfaceStaysInNamespaces(child, nss[0].body);
      InterfaceListStaysInNamespaces(st, nss[1..]);
      forall x | x in InterfaceFuns(child, nss[0].body)
        ensures UnderNamespaces(st, x.stack)
      {
        UnderPush(st, NamespaceFrame(nss[0]), x.stack);
      }
    }
  }

  /** Every function the schema walk visits sits under the starting stack. */
  lemma {:induction false} SchemaStaysUnder(st: Stack, b: NamespaceBody)
    ensures forall x :: x in SchemaFuns(st, b) ==> Under(st, x.stack)
    decreases b, 1
  {
    SchemaFunListStaysUnder(st, b.functions);
    SchemaNamespaceListStaysUnder(st, b.namespaces);
  }

  lemma {:induction false} SchemaFunListStaysUnder(st: Stack, fs: seq<FunctionDecl>)
    ensures forall x :: x in SchemaFunList(st, fs) ==> Under(st, x.stack)
    decreases fs, 0
  {
    if fs != [] {
      FunOfSchemaUnderFunction(st, fs[0]);
      SchemaFunListStaysUnder(st, fs[1..]);
      forall x | x in FunOfSchema(st, fs[0])
        ensures Under(st, x.stack)
      {
        UnderPush(st, FunctionFrame(fs[0]), x.stack);
      }
    }
  }

  lemma {:induction false} SchemaNamespaceListStaysUnder(st: Stack, nss: seq<NamespaceDecl>)
    ensures forall x :: x in SchemaNamespaceList(st, nss) ==> Under(st, x.stack)
    decreases nss, 0
  {
    if nss != [] {
      var child := Push(st, NamespaceFrame(nss[0]));
      SchemaStaysUnder(child, nss[0].body);
      SchemaNamespaceListStaysUnder(st, nss[1..]);
      forall x | x in SchemaFuns(child, nss[0].body)
        ensures Under(st, x.stack)
      {
        UnderPush(st, NamespaceFrame(nss[0]), x.stack);
      }
    }
  }

  /** Post-order: what the schema walk visits for a function before the
      function itself all sits under that function's own frame. */
  lemma {:induction false} FunOfSchemaUnderFunction(st: Stack, f: FunctionDecl)
    ensures forall x :: x in FunOfSchema(st, f) ==> Under(Push(st, FunctionFrame(f)), x.stack)
    decreases f, 2
  {
    if f.body.Some? {
      SchemaStaysUnder(Push(st, FunctionFrame(f)), f.body.value);
    }
  }

  /** The schema walk visits everything the interface walk visits. */
  lemma {:induction false} InterfaceInSchema(st: Stack, b: NamespaceBody)
    ensures forall x :: x in InterfaceFuns(st, b) ==> x in SchemaFuns(st, b)
    decreases b, 1
  {
    LocalFunsInSchema(st, b.functions);
    InterfaceListInSchema(st, b.namespaces);
  }

  lemma {:induction false} LocalFunsInSchema(st: Stack, fs: seq<FunctionDecl>)
    ensures forall x :: x in AnchorAll(st, fs) ==> x in SchemaFunList(st, fs)
    decreases fs
  {
    if fs != [] {
      LocalFunsInSchema(st, fs[1..]);
      assert AnchorAll(st, fs) == [Anchor(st, fs[0])] + AnchorAll(st, fs[1..]);
    }
  }

  lemma {:induction false} InterfaceListInSchema(st: Stack, nss: seq<NamespaceDecl>)
    ensures forall x :: x in InterfaceNamespaceList(st, nss) ==> x in SchemaNamespaceList(st, nss)
    decreases nss, 0
  {
    if nss != [] {
      InterfaceInSchema(Push(st, NamespaceFrame(nss[0])), nss[0].body);
      InterfaceListInSchema(st, nss[1..]);
    }
  }

  /** `filter_funs`: only the functions the predicate accepts reach the
      callback, in their original order. */
  function FilterFuns(pred: Anchored<FunctionDecl> -> bool, fs: seq<Anchored<FunctionDecl>>): (r: seq<Anchored<FunctionDecl>>)
    ensures forall x :: x in r <==> x in fs && pred(x)
    ensures |r| <= |fs|
  {
    if fs == [] then []
    else FilterFuns(pred, fs[..|fs| - 1]) + (if pred(fs[|fs| - 1]) then [fs[|fs| - 1]] else [])
  }

  /** Filtering keeps the functions' relative order: filtering a
      concatenation is filtering each part and concatenating the results. */
  lemma {:induction false} FilterFunsAppend(pred: Anchored<FunctionDecl> -> bool, a: seq<Anchored<FunctionDecl>>, b: seq<Anchored<FunctionDecl>>)
    ensures FilterFuns(pred, a + b) == FilterFuns(pred, a) + FilterFuns(pred, b)
    decreases |b|
  {
    if b == [] {
      assert a + b == a;
    } else {
      var init := b[..|b| - 1];
      assert (a + b)[..|a + b| - 1] == a + init;
      assert (a + b)[|a + b| - 1] == b[|b| - 1];
      FilterFunsAppend(pred, a, init);
    }
  }

  /** `filter_fun_side`: exactly the functions of the given side. */
  function FilterFunSide(side: Side, fs: seq<Anchored<FunctionDecl>>): (r: seq<Anchored<FunctionDecl>>)
    ensures forall x :: x in r <==> x in fs && x.inner.side == side
  {
    FilterFuns((x: Anchored<FunctionDecl>) => x.inner.side == side, fs)
  }

  /** The two sides split the functions between them. */
  lemma FilterSidesPartition(fs: seq<Anchored<FunctionDecl>>)
    ensures |FilterFunSide(Client, fs)| + |FilterFunSide(Server, fs)| == |fs|
  {
    FilterComplement((x: Anchored<FunctionDecl>) => x.inner.side == Client, (x: Anchored<FunctionDecl>) => x.inner.side == Server, fs);
  }

  lemma {:induction false} FilterComplement(p: Anchored<FunctionDecl> -> bool, q: Anchored<FunctionDecl> -> bool, fs: seq<Anchored<FunctionDecl>>)
    requires forall x :: p(x) != q(x)
    ensures |FilterFuns(p, fs)| + |FilterFuns(q, fs)| == |fs|
  {
    if fs != [] {
      FilterComplement(p, q, fs[..|fs| - 1]);
    }
  }
}
