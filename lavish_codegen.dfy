/** The older crate's code-generation entry point (lavish/src/codegen/mod.rs):
    the `Error` a generator reports, its conversions and display, and the
    `codegen` driver that picks the generator for the workspace's target and
    emits every member in turn until one fails. */
module LavishCodegen {
  import opened Common
  import opened LavishAst

  /** `codegen::Error`: a message. */
  datatype Error = Error(message: string)

  const IoPrefix: string := "i/o error: "
  const DisplayPrefix: string := "codegen error: "

  predicate StartsWith(s: string, p: string)
  {
    |p| <= |s| && s[..|p|] == p
  }

  /** `From<io::Error>`: the I/O error's text after "i/o error: ". */
  function FromIo(e: string): (r: Error)
    ensures StartsWith(r.message, IoPrefix) && r.message[|IoPrefix|..] == e
  {
    Error(IoPrefix + e)
  }

  /** `From<&'static str>`: the text itself. */
  function FromStr(s: string): (r: Error)
    ensures r.message == s
  {
    Error(s)
  }

  /** `Display`: "codegen error: " and the message. */
  function Display(e: Error): (r: string)
  {
    DisplayPrefix + e.message
  }

  /** The message back out of a displayed error, if the text is one. */
  function ParseDisplay(s: string): (r: Option<Error>)
  {
    if StartsWith(s, DisplayPrefix) then Some(Error(s[|DisplayPrefix|..])) else None
  }

  /** Reading a displayed error gives back the error, and only displayed
      errors are read: display is one-to-one and its image is exactly the
      texts starting with "codegen error: ". */
  lemma DisplayRoundTrip(e: Error, s: string)
    ensures ParseDisplay(Display(e)) == Some(e)
    ensures ParseDisplay(s) == Some(e) <==> s == Display(e)
  {
    var d := Display(e);
    assert d[..|DisplayPrefix|] == DisplayPrefix;
    assert d[|DisplayPrefix|..] == e.message;
    if ParseDisplay(s) == Some(e) {
      assert s == s[..|DisplayPrefix|] + s[|DisplayPrefix|..];
    }
  }

  // `codegen`

  /** How `codegen` ends: `Ok(())`, the first member's error, or the panic
      on a target no generator exists for. */
  datatype Outcome = Done | Failed(error: Error) | Unimplemented(target: Target)

  /** `order` lists every member key exactly once: the iteration order of
      the members map, which the source leaves to the hash map. */
  ghost predicate IsOrder(ws: Workspace, order: seq<string>)
  {
    (forall k :: 0 <= k < |order| ==> order[k] in ws.members)
    && (forall i, j :: 0 <= i < j < |order| ==> order[i] != order[j])
    && (forall key :: key in ws.members ==> key in order)
  }

  /** The first failure among the members listed in `order`, and where it
      happened. */
  function FirstError(ws: Workspace, order: seq<string>, emit: (Workspace, WorkspaceMember) -> Option<Error>): (r: Option<(nat, Error)>)
    requires forall k :: 0 <= k < |order| ==> order[k] in ws.members
    ensures r.Some? ==> r.value.0 < |order| && emit(ws, ws.members[order[r.value.0]]) == Some(r.value.1)
    ensures r.Some? ==> forall k :: 0 <= k < r.value.0 ==> emit(ws, ws.members[order[k]]).None?
    ensures r.None? ==> forall k :: 0 <= k < |order| ==> emit(ws, ws.members[order[k]]).None?
  {
    if order == [] then None
    else match emit(ws, ws.members[order[0]])
      case Some(e) => Some((0, e))
      case None =>
        match FirstError(ws, order[1..], emit)
        case None => None
        case Some(p) => Some((p.0 + 1, p.1))
  }

  /** What `codegen` returns for a workspace. */
  function CodegenOutcome(ws: Workspace, order: seq<string>, emit: (Workspace, WorkspaceMember) -> Option<Error>): Outcome
    requires forall k :: 0 <= k < |order| ==> order[k] in ws.members
  {
    if !ws.rules.target.Rust? then Unimplemented(ws.rules.target)
    else match FirstError(ws, order, emit)
      case None => Done
      case Some(p) => Failed(p.1)
  }

  /** `codegen`: a non-Rust target is refused before anything is emitted;
      otherwise the members are emitted in order, stopping at the first
      error, which is returned.  `emitted` lists the members whose emission
      was started: all of them on success, up to and including the failing
      one otherwise. */
  method Codegen(ws: Workspace, order: seq<string>, emit: (Workspace, WorkspaceMember) -> Option<Error>)
    returns (r: Outcome, emitted: seq<string>)
    requires IsOrder(ws, order)
    ensures r == CodegenOutcome(ws, order, emit)
    ensures r.Unimplemented? ==> emitted == []
    ensures r.Done? ==> emitted == order
    ensures r.Failed? ==> emitted == order[..FirstError(ws, order, emit).value.0 + 1]
  {
    emitted := [];
    if !ws.rules.target.Rust? {
      return Unimplemented(ws.rules.target), emitted;
    }
    var i := 0;
    while i < |order|
      invariant 0 <= i <= |order|
      invariant emitted == order[..i]
      invariant forall k :: 0 <= k < i ==> emit(ws, ws.members[order[k]]).None?
    {
      assert order[..i + 1] == order[..i] + [order[i]];
      emitted := emitted + [order[i]];
      var res := emit(ws, ws.members[order[i]]);
      if res.Some? {
        FirstErrorAt(ws, order, emit, i);
        return Failed(res.value), emitted;
      }
      i := i + 1;
    }
    assert order[..i] == order;
    FirstErrorNone(ws, order, emit);
    r := Done;
  }

  /** The first failure is the one at `i` when everything before `i`
      succeeded. */
  lemma {:induction false} FirstErrorAt(ws: Workspace, order: seq<string>, emit: (Workspace, WorkspaceMember) -> Option<Error>, i: nat)
    requires forall k :: 0 <= k < |order| ==> order[k] in ws.members
    requires i < |order| && emit(ws, ws.members[order[i]]).Some?
    requires forall k :: 0 <= k < i ==> emit(ws, ws.members[order[k]]).None?
    ensures FirstError(ws, order, emit) == Some((i, emit(ws, ws.members[order[i]]).value))
    decreases i
  {
    if i > 0 {
      FirstErrorAt(ws, order[1..], emit, i - 1);
    }
  }

  /** No failure at all when every member succeeded. */
  lemma {:induction false} FirstErrorNone(ws: Workspace, order: seq<string>, emit: (Workspace, WorkspaceMember) -> Option<Error>)
    requires forall k :: 0 <= k < |order| ==> order[k] in ws.members
    requires forall k :: 0 <= k < |order| ==> emit(ws, ws.members[order[k]]).None?
    ensures FirstError(ws, order, emit) == None
    decreases |order|
  {
    if order != [] {
      FirstErrorNone(ws, order[1..], emit);
    }
  }

  /** `codegen` succeeds exactly when the target is Rust and every member
      emits without error; it reports an error exactly when some member
      fails, and that error is the earliest member's in iteration order. */
  lemma CodegenSucceeds(ws: Workspace, order: seq<string>, emit: (Workspace, WorkspaceMember) -> Option<Error>)
    requires IsOrder(ws, order)
    ensures CodegenOutcome(ws, order, emit).Done?
      <==> ws.rules.target.Rust? && forall key :: key in ws.members ==> emit(ws, ws.members[key]).None?
    ensures CodegenOutcome(ws, order, emit).Failed?
      <==> ws.rules.target.Rust? && exists key :: key in ws.members && emit(ws, ws.members[key]).Some?
  {
    if ws.rules.target.Rust? {
      match FirstError(ws, order, emit)
      case None =>
        forall key | key in ws.members
          ensures emit(ws, ws.members[key]).None?
        {
          var k :| 0 <= k < |order| && order[k] == key;
        }
      case Some(p) =>
        assert order[p.0] in ws.members && emit(ws, ws.members[order[p.0]]).Some?;
    }
  }
}
