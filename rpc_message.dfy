/** The messages of lavish-rpc/src/message.rs, laid out as the arrays of the
    MessagePack-RPC specification: a Request is [0, id, method, params], a
    Response [1, id, error, results] and a Notification [2, method, params].
    Messages are built and read here at the level of MessagePack values; an
    atom (the params or results of one method) is its method name and the
    value it serialises to. */
module RpcMessage {
  import opened Common

  newtype u32 = x: int | 0 <= x < 0x1_0000_0000

  /** The MessagePack values a message is made of. */
  datatype Value =
    | Nil
    | UInt(n: nat)
    | Str(s: string)
    | Arr(items: seq<Value>)
    | Map(entries: seq<(Value, Value)>)

  /** An atom: which method it belongs to, and what it serialises to. */
  datatype Atom = Atom(methodName: string, body: Value)

  datatype Message =
    | Request(id: u32, params: Atom)
    | Response(id: u32, error: Option<string>, results: Option<Atom>)
    | Notification(params: Atom)

  /** The ways reading a message fails.  `Missing` is the sequence running
      out before a field; `WrongType` a field of the wrong kind; `AtomFailed`
      the atom decoder's own error; `Unimplemented` a message type the reader
      has no branch for, where the source panics. */
  datatype DecodeError =
    | Missing(field: string)
    | WrongType(expected: string)
    | AtomFailed(reason: string)
    | Unimplemented(typ: u32)

  function MissingText(field: string): (r: string)
    ensures r == "invalid msgpack-RPC message: missing " + field
  {
    "invalid msgpack-RPC message: missing " + field
  }

  // The constructors.

  function NewRequest(id: u32, params: Atom): (m: Message)
    ensures m.Request? && m.id == id && m.params == params
  {
    Request(id, params)
  }

  function NewNotification(params: Atom): (m: Message)
    ensures m.Notification? && m.params == params
  {
    Notification(params)
  }

  function NewResponse(id: u32, error: Option<string>, results: Option<Atom>): (m: Message)
    ensures m.Response? && m.id == id && m.error == error && m.results == results
  {
    Response(id, error, results)
  }

  // Serialising.

  function OptionString(o: Option<string>): Value
  {
    if o.Some? then Str(o.value) else Nil
  }

  function OptionAtom(o: Option<Atom>): Value
  {
    if o.Some? then o.value.body else Nil
  }

  /** The elements `serialize` emits, in order. */
  function Elements(m: Message): (r: seq<Value>)
    ensures |r| == (if m.Notification? then 3 else 4)
    ensures r[0] == UInt(if m.Request? then 0 else if m.Response? then 1 else 2)
  {
    match m
    case Request(id, params) => [UInt(0), UInt(id as nat), Str(params.methodName), params.body]
    case Response(id, error, results) => [UInt(1), UInt(id as nat), OptionString(error), OptionAtom(results)]
    case Notification(params) => [UInt(2), Str(params.methodName), params.body]
  }

  function Serialize(m: Message): Value
  {
    Arr(Elements(m))
  }

  /** The sequence a serialiser is writing: elements are pushed one by one. */
  class SeqWriter {
    var items: seq<Value>

    constructor()
      ensures items == []
    {
      items := [];
    }

    method Push(v: Value)
      modifies this
      ensures items == old(items) + [v]
    {
      items := items + [v];
    }
  }

  /** `serialize`: the type tag, then the fields, element by element. */
  method SerializeMessage(m: Message) returns (v: Value)
    ensures v == Serialize(m)
  {
    var w := new SeqWriter();
    match m {
      case Request(id, params) =>
        w.Push(UInt(0));
        w.Push(UInt(id as nat));
        w.Push(Str(params.methodName));
        w.Push(params.body);
      case Response(id, error, results) =>
        w.Push(UInt(1));
        w.Push(UInt(id as nat));
        w.Push(OptionString(error));
        w.Push(OptionAtom(results));
      case Notification(params) =>
        w.Push(UInt(2));
        w.Push(Str(params.methodName));
        w.Push(params.body);
    }
    v := Arr(w.items);
  }

  /** The tag of each kind is distinct, so serialising never confuses two
      kinds, and equal serialisations come from equal messages whenever the
      atoms are determined by their method and body. */
  lemma SerializeInjective(m1: Message, m2: Message)
    requires Serialize(m1) == Serialize(m2)
    requires m1.Response? ==> (m1.results.None? || m1.results.value.body != Nil) && (m2.results.None? || m2.results.value.body != Nil)
    requires m1.Response? && m1.results.Some? && m2.results.Some? ==> m1.results.value.methodName == m2.results.value.methodName
    ensures m1 == m2
  {
    var e1 := Elements(m1);
    var e2 := Elements(m2);
    assert e1 == e2;
    if m1.Response? {
      assert m1.error == m2.error by {
        assert OptionString(m1.error) == OptionString(m2.error);
      }
    }
  }

  // Reading.

  function ReadU32(v: Value): Result<u32, DecodeError>
  {
    if v.UInt? && v.n < 0x1_0000_0000 then Ok(v.n as u32) else Err(WrongType("u32"))
  }

  function ReadString(v: Value): Result<string, DecodeError>
  {
    if v.Str? then Ok(v.s) else Err(WrongType("string"))
  }

  function ReadOptionString(v: Value): Result<Option<string>, DecodeError>
  {
    if v.Nil? then Ok(None) else if v.Str? then Ok(Some(v.s)) else Err(WrongType("option"))
  }

  /** `AtomApply`: the atom decoder, told the method name. */
  function ReadAtom(decodeAtom: (string, Value) -> Result<Atom, string>, methodName: string, v: Value): Result<Atom, DecodeError>
  {
    var a := decodeAtom(methodName, v);
    if a.Ok? then Ok(a.value) else Err(AtomFailed(a.error))
  }

  /** `AtomOptionVisitor`: nil is no atom, anything else goes to the atom
      decoder. */
  function ReadOptionAtom(decodeAtom: (string, Value) -> Result<Atom, string>, methodName: string, v: Value): Result<Option<Atom>, DecodeError>
  {
    if v.Nil? then Ok(None)
    else
      var a := decodeAtom(methodName, v);
      if a.Ok? then Ok(Some(a.value)) else Err(AtomFailed(a.error))
  }

  /** Element `k` of the sequence, or the error for the missing `field`. */
  function Element(items: seq<Value>, k: nat, field: string): Result<Value, DecodeError>
  {
    if k < |items| then Ok(items[k]) else Err(Missing(field))
  }

  /** What `MessageVisitor::visit_seq` reads from the elements of a
      sequence.  `pending` is the table of in-flight requests: a response is
      decoded only for an id it holds, with that request's method. */
  function DecodeElements(items: seq<Value>, pending: map<u32, string>, decodeAtom: (string, Value) -> Result<Atom, string>): Result<Message, DecodeError>
  {
    var tv := Element(items, 0, "type");
    if tv.Err? then Err(tv.error)
    else
      var typ := ReadU32(tv.value);
      if typ.Err? then Err(typ.error)
      else if typ.value == 0 then
        var iv := Element(items, 1, "id");
        if iv.Err? then Err(iv.error) else
        var id := ReadU32(iv.value);
        if id.Err? then Err(id.error) else
        var mv := Element(items, 2, "method");
        if mv.Err? then Err(mv.error) else
        var name := ReadString(mv.value);
        if name.Err? then Err(name.error) else
        var pv := Element(items, 3, "params");
        if pv.Err? then Err(pv.error) else
        var params := ReadAtom(decodeAtom, name.value, pv.value);
        if params.Err? then Err(params.error) else
        Ok(Request(id.value, params.value))
      else if typ.value == 1 then
        var iv := Element(items, 1, "id");
        if iv.Err? then Err(iv.error) else
        var id := ReadU32(iv.value);
        if id.Err? then Err(id.error) else
        var ev := Element(items, 2, "error");
        if ev.Err? then Err(ev.error) else
        var error := ReadOptionString(ev.value);
        if error.Err? then Err(error.error) else
        if id.value !in pending then Err(Missing("no such pending request")) else
        var rv := Element(items, 3, "results");
        if rv.Err? then Err(rv.error) else
        var results := ReadOptionAtom(decodeAtom, pending[id.value], rv.value);
        if results.Err? then Err(results.error) else
        Ok(Response(id.value, error.value, results.value))
      else Err(Unimplemented(typ.value))
  }

  /** A message must be a sequence. */
  function Decode(v: Value, pending: map<u32, string>, decodeAtom: (string, Value) -> Result<Atom, string>): Result<Message, DecodeError>
  {
    if v.Arr? then DecodeElements(v.items, pending, decodeAtom) else Err(WrongType("sequence"))
  }

  /** The elements of a sequence being read, and how many were taken. */
  class SeqReader {
    const items: seq<Value>
    var pos: nat

    constructor(items: seq<Value>)
      ensures this.items == items && pos == 0
    {
      this.items := items;
      pos := 0;
    }

    /** `next_element`: the next element, or nothing at the end. */
    method Next() returns (r: Option<Value>)
      modifies this
      ensures old(pos) < |items| ==> r == Some(items[old(pos)]) && pos == old(pos) + 1
      ensures old(pos) >= |items| ==> r == None && pos == old(pos)
    {
      if pos < |items| {
        r := Some(items[pos]);
        pos := pos + 1;
      } else {
        r := None;
      }
    }
  }

  /** `visit_seq`: the fields are pulled from the sequence one at a time,
      and the first one that is missing or malformed ends the read. */
  method VisitSeq(items: seq<Value>, pending: map<u32, string>, decodeAtom: (string, Value) -> Result<Atom, string>)
    returns (r: Result<Message, DecodeError>)
    ensures r == DecodeElements(items, pending, decodeAtom)
  {
    var access := new SeqReader(items);
    var tv := access.Next();
    if tv.None? { return Err(Missing("type")); }
    var typ := ReadU32(tv.value);
    if typ.Err? { return Err(typ.error); }
    if typ.value == 0 {
      var iv := access.Next();
      if iv.None? { return Err(Missing("id")); }
      var id := ReadU32(iv.value);
      if id.Err? { return Err(id.error); }
      var mv := access.Next();
      if mv.None? { return Err(Missing("method")); }
      var name := ReadString(mv.value);
      if name.Err? { return Err(name.error); }
      var pv := access.Next();
      if pv.None? { return Err(Missing("params")); }
      var params := ReadAtom(decodeAtom, name.value, pv.value);
      if params.Err? { return Err(params.error); }
      r := Ok(Request(id.value, params.value));
    } else if typ.value == 1 {
      var iv := access.Next();
      if iv.None? { return Err(Missing("id")); }
      var id := ReadU32(iv.value);
      if id.Err? { return Err(id.error); }
      var ev := access.Next();
      if ev.None? { return Err(Missing("error")); }
      var error := ReadOptionString(ev.value);
      if error.Err? { return Err(error.error); }
      if id.value !in pending { return Err(Missing("no such pending request")); }
      var rv := access.Next();
      if rv.None? { return Err(Missing("results")); }
      var results := ReadOptionAtom(decodeAtom, pending[id.value], rv.value);
      if results.Err? { return Err(results.error); }
      r := Ok(Response(id.value, error.value, results.value));
    } else {
      r := Err(Unimplemented(typ.value));
    }
  }

  /** A request reads back as itself when the atom decoder recognises its
      params; no in-flight table is needed. */
  lemma RequestRoundTrip(id: u32, params: Atom, pending: map<u32, string>, decodeAtom: (string, Value) -> Result<Atom, string>)
    requires decodeAtom(params.methodName, params.body) == Ok(params)
    ensures Decode(Serialize(Request(id, params)), pending, decodeAtom) == Ok(Request(id, params))
    ensures Serialize(Decode(Serialize(Request(id, params)), pending, decodeAtom).value) == Serialize(Request(id, params))
  {
  }

  /** A response reads back as itself when its id is in flight, its results
      are recognised under the pending request's method and do not serialise
      to nil. */
  lemma ResponseRoundTrip(m: Message, pending: map<u32, string>, decodeAtom: (string, Value) -> Result<Atom, string>)
    requires m.Response? && m.id in pending
    requires m.results.Some? ==> m.results.value.body != Nil && decodeAtom(pending[m.id], m.results.value.body) == Ok(m.results.value)
    ensures Decode(Serialize(m), pending, decodeAtom) == Ok(m)
  {
  }

  /** Results that serialise to nil read back as no results. */
  lemma NilResultsReadAsNone(id: u32, error: Option<string>, a: Atom, pending: map<u32, string>, decodeAtom: (string, Value) -> Result<Atom, string>)
    requires id in pending && a.body == Nil
    ensures Decode(Serialize(Response(id, error, Some(a))), pending, decodeAtom) == Ok(Response(id, error, None))
  {
  }

  /** A response whose id is not in flight is refused, whatever it holds. */
  lemma UnknownResponseRefused(id: u32, error: Option<string>, results: Option<Atom>, pending: map<u32, string>, decodeAtom: (string, Value) -> Result<Atom, string>)
    requires id !in pending
    ensures Decode(Serialize(Response(id, error, results)), pending, decodeAtom) == Err(Missing("no such pending request"))
  {
  }

  /** A notification is never read back: type 2 has no branch. */
  lemma NotificationUnimplemented(params: Atom, pending: map<u32, string>, decodeAtom: (string, Value) -> Result<Atom, string>)
    ensures Decode(Serialize(Notification(params)), pending, decodeAtom) == Err(Unimplemented(2))
  {
  }

  /** A sequence cut short reports the first field it lacks. */
  lemma TruncatedRequest(id: u32, params: Atom, n: nat, pending: map<u32, string>, decodeAtom: (string, Value) -> Result<Atom, string>)
    requires n < 4
    ensures Decode(Arr(Elements(Request(id, params))[..n]), pending, decodeAtom)
      == Err(Missing(["type", "id", "method", "params"][n]))
  {
  }
}
