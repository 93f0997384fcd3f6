/** The bookkeeping of lavish-rpc/src/system.rs: the queue that numbers
    outgoing requests and remembers which are in flight, how a call reads
    its reply, how an inbound request is answered, and the growing-buffer
    codec that writes and reads whole messages.  Tasks, channels and locks
    are not modelled: each operation is one step on the queue's state. */
module RpcSystem {
  import opened Common
  import opened RpcMessage
  import opened RpcFraming

  /** The errors a call or a handler can end in.  A call's reply raises
      `RemoteError`, `WrongResults`, `MissingResults`, `WrongMessageType` or
      `TransportError` (lavish-rpc/src/system.rs:124-137), and spawning the
      connection's task raises `SpawnError` (lavish-rpc/src/system.rs:204). */
  datatype Error =
    | WrongResults
    | MissingResults
    | WrongMessageType
    | MethodUnimplemented(methodName: string)
    | RemoteError(message: string)
    | TransportError(message: string)
    | SpawnError(reason: string)
    | InternalError(message: string)

  const U32Count: nat := 0x1_0000_0000

  /** The request table.  `issued` records every id handed out so far. */
  class Queue {
    var id: u32
    var inFlight: map<u32, string>
    ghost var issued: seq<u32>

    /** The ids are handed out in order from 0, wrapping at 2^32. */
    ghost predicate Valid()
      reads this
    {
      && id as int == |issued| % U32Count
      && (forall k :: 0 <= k < |issued| ==> issued[k] as int == k % U32Count)
    }

    /** `Queue::new`: id 0 and nothing in flight. */
    constructor()
      ensures Valid() && id == 0 && inFlight == map[] && issued == []
    {
      id := 0;
      inFlight := map[];
      issued := [];
    }

    /** `next_id`: the current id, then one more (wrapping). */
    method NextId() returns (r: u32)
      requires Valid()
      modifies this
      ensures Valid()
      ensures r == old(id) && issued == old(issued) + [r] && inFlight == old(inFlight)
      ensures |old(issued)| < U32Count ==> forall k :: 0 <= k < |old(issued)| ==> old(issued)[k] < r
    {
      r := id;
      id := ((id as int + 1) % U32Count) as u32;
      issued := issued + [r];
    }

    /** `get_pending`: the method of the in-flight request `id`. */
    function GetPending(id: u32): (r: Option<string>)
      reads this
      ensures r.Some? <==> id in inFlight
      ensures r.Some? ==> r.value == inFlight[id]
    {
      if id in inFlight then Some(inFlight[id]) else None
    }

    /** `call_raw`, up to sending: the request takes the next id and is
        registered as in flight under it with its method. */
    method CallRaw(params: Atom) returns (m: Message)
      requires Valid()
      modifies this
      ensures Valid()
      ensures m == Request(old(id), params)
      ensures inFlight == old(inFlight)[m.id := params.methodName]
      ensures issued == old(issued) + [m.id]
      ensures GetPending(m.id) == Some(params.methodName)
    {
      var id := NextId();
      var methodName := params.methodName;
      m := Request(id, params);
      inFlight := inFlight[id := methodName];
    }

    /** `handle_message` for an inbound response: the in-flight entry is
        taken out and the response forwarded to the caller; a response for
        no in-flight request is dropped. */
    method HandleResponse(m: Message) returns (forwarded: Option<Message>)
      requires m.Response?
      modifies this
      ensures old(m.id in inFlight) ==> forwarded == Some(m) && inFlight == old(inFlight) - {m.id}
      ensures old(m.id !in inFlight) ==> forwarded == None && inFlight == old(inFlight)
      ensures m.id !in inFlight && id == old(id) && issued == old(issued)
    {
      if m.id in inFlight {
        inFlight := inFlight - {m.id};
        forwarded := Some(m);
      } else {
        forwarded := None;
      }
    }
  }

  /** Ids handed out before the counter wraps are distinct. */
  lemma IssuedDistinct(q: Queue, i: nat, j: nat)
    requires q.Valid() && i < j < |q.issued| <= U32Count
    ensures q.issued[i] < q.issued[j]
  {
    assert q.issued[i] as int == i % U32Count;
    assert q.issued[j] as int == j % U32Count;
  }

  /** The 2^32-th request after the start reuses id 0. */
  lemma IdsWrap(q: Queue)
    requires q.Valid() && |q.issued| == U32Count + 1
    ensures q.issued[U32Count] == q.issued[0]
  {
    assert q.issued[U32Count] as int == U32Count % U32Count;
  }

  /** `call`: what the caller gets from the reply `call_raw` produced (or
      the transport failure, already formatted). */
  function Classify<T>(reply: Result<Message, string>, downgrade: Atom -> Option<T>): (r: Result<T, Error>)
  {
    if reply.Err? then Err(TransportError(reply.error))
    else if !reply.value.Response? then Err(WrongMessageType)
    else if reply.value.error.Some? then Err(RemoteError(reply.value.error.value))
    else if reply.value.results.Some? then
      var d := downgrade(reply.value.results.value);
      if d.Some? then Ok(d.value) else Err(WrongResults)
    else Err(MissingResults)
  }

  /** A call succeeds exactly when the reply is a response without an error
      whose results downgrade; otherwise the error names what went wrong. */
  lemma ClassifyMeaning<T>(reply: Result<Message, string>, downgrade: Atom -> Option<T>)
    ensures Classify(reply, downgrade).Ok? <==>
      reply.Ok? && reply.value.Response? && reply.value.error.None? && reply.value.results.Some?
      && downgrade(reply.value.results.value).Some?
    ensures Classify(reply, downgrade).Ok? ==> Classify(reply, downgrade).value == downgrade(reply.value.results.value).value
    ensures reply.Ok? && reply.value.Response? && reply.value.error.Some? ==>
      Classify(reply, downgrade) == Err(RemoteError(reply.value.error.value))
  {
  }

  /** What the handler did with a request: there may be none. */
  datatype HandlerOutcome = NoHandler | Handled(result: Result<Atom, Error>)

  /** `handle_message` for an inbound request: the response it sends.
      `debugText` stands for the pretty Debug rendering of the handler's
      error. */
  function RespondTo(id: u32, outcome: HandlerOutcome, debugText: string): (m: Message)
    ensures m.Response? && m.id == id
    ensures m.error.None? <==> m.results.Some?
  {
    match outcome
    case NoHandler => Response(id, Some("no method handler"), None)
    case Handled(Ok(results)) => Response(id, None, Some(results))
    case Handled(Err(_)) => Response(id, Some("internal error: " + debugText), None)
  }

  /** Across the wire: the peer's answer, read back under the caller's
      in-flight table, classified by `call`.  A handler's results reach the
      caller, a handler's failure or a missing handler comes back as a
      remote error. */
  lemma CallSeesHandler<T>(
    id: u32, outcome: HandlerOutcome, debugText: string, pending: map<u32, string>,
    decodeAtom: (string, Value) -> Result<Atom, string>, downgrade: Atom -> Option<T>)
    requires id in pending
    requires outcome.Handled? && outcome.result.Ok? ==>
      outcome.result.value.body != Nil && decodeAtom(pending[id], outcome.result.value.body) == Ok(outcome.result.value)
    ensures var back := RpcMessage.Decode(Serialize(RespondTo(id, outcome, debugText)), pending, decodeAtom);
      && back == Ok(RespondTo(id, outcome, debugText))
      && Classify(Ok(back.value), downgrade) ==
         (match outcome
          case NoHandler => Err(RemoteError("no method handler"))
          case Handled(Ok(results)) =>
            if downgrade(results).Some? then Ok(downgrade(results).value) else Err(WrongResults)
          case Handled(Err(_)) => Err(RemoteError("internal error: " + debugText)))
  {
    ResponseRoundTrip(RespondTo(id, outcome, debugText), pending, decodeAtom);
  }

  // The growing-buffer codec of system.rs.

  /** `dst.resize(n, 0)`. */
  function Resize(s: seq<byte>, n: nat): (r: seq<byte>)
    ensures |r| == n
    ensures forall k :: 0 <= k < n ==> r[k] == (if k < |s| then s[k] else 0)
  {
    if n <= |s| then s[..n] else s + seq(n - |s|, _ => 0)
  }

  /** The buffer length `encode` ends with: start from `start` and double
      until `n` bytes fit. */
  function GrownLength(start: nat, n: nat): nat
    requires start >= 1
    decreases n - start
  {
    if n <= start then start else GrownLength(2 * start, n)
  }

  /** The final length holds the message, and is the start or less than
      twice the message: no more doubling than needed. */
  lemma {:induction false} GrownLengthBounds(start: nat, n: nat)
    requires start >= 1
    ensures GrownLength(start, n) >= n && GrownLength(start, n) >= start
    ensures GrownLength(start, n) == start || GrownLength(start, n) < 2 * n
    decreases n - start
  {
    if n > start {
      GrownLengthBounds(2 * start, n);
    }
  }

  /** `encode`: serialise into a buffer of length max(128, capacity),
      doubling it each time the serialiser runs out of room; on success the
      buffer is cut down to what was written.  `payload` is the message's
      MessagePack encoding.  The buffer is written from its start, so what
      `dst` held before is replaced. */
  method Encode(payload: seq<byte>, capacity: nat, dst: ByteBuf) returns (len: nat)
    modifies dst
    ensures len == GrownLength(if capacity > 128 then capacity else 128, |payload|)
    ensures dst.data == payload
  {
    len := if capacity > 128 then capacity else 128;
    ghost var start := len;
    dst.data := Resize(dst.data, len);
    while len < |payload|
      invariant len >= 1 && |dst.data| == len
      invariant GrownLength(len, |payload|) == GrownLength(start, |payload|)
      decreases |payload| - len
    {
      len := len * 2;
      dst.data := Resize(dst.data, len);
    }
    dst.data := payload;
  }

  /** What the MessagePack reader made of the start of the buffer: a value
      and how many bytes it took, or the kind of its failure.  Errors raised
      while reading the message (a missing field, an unknown id, a bad atom)
      reach the codec as `Syntax`. */
  datatype ReadErrorKind = InvalidDataRead | InvalidMarkerRead | Syntax | OtherError(message: string)

  datatype ReadOutcome = Read(v: Value, pos: nat) | ReadFailed(kind: ReadErrorKind)

  /** What `decode` does with the buffer: the message read, or nothing yet,
      or an error; None where reading the message panics, on a message type
      the reader has no branch for. */
  function DecodeStep(src: seq<byte>, read: ReadOutcome, pending: map<u32, string>,
                      decodeAtom: (string, Value) -> Result<Atom, string>): (r: Option<Result<Option<(Message, nat)>, string>>)
  {
    if src == [] then Some(Ok(None))
    else if read.ReadFailed? then
      if read.kind.OtherError? then Some(Err(read.kind.message)) else Some(Ok(None))
    else
      var m := RpcMessage.Decode(read.v, pending, decodeAtom);
      if m.Ok? then Some(Ok(Some((m.value, read.pos))))
      else if m.error.Unimplemented? then None
      else Some(Ok(None))
  }

  /** The codec over the queue's in-flight table. */
  class SystemCodec {
    const queue: Queue

    constructor(queue: Queue)
      ensures this.queue == queue
    {
      this.queue := queue;
    }

    /** `decode`: a message read in full consumes exactly the bytes read;
        the three "need more" errors leave the buffer alone and yield
        nothing; any other error is returned; a message type the reader has
        no branch for panics (None).  `read` is the reader's verdict on
        `src`. */
    method Decode(src: ByteBuf, read: ReadOutcome, decodeAtom: (string, Value) -> Result<Atom, string>)
      returns (r: Option<Result<Option<Message>, string>>)
      requires read.Read? ==> read.pos <= |src.data|
      modifies src
      ensures var step := DecodeStep(old(src.data), read, queue.inFlight, decodeAtom);
        && (step.None? ==> r.None? && src.data == old(src.data))
        && (step == Some(Ok(None)) ==> r == Some(Ok(None)) && src.data == old(src.data))
        && (step.Some? && step.value.Ok? && step.value.value.Some? ==>
              r == Some(Ok(Some(step.value.value.value.0))) && src.data == old(src.data)[step.value.value.value.1..])
        && (step.Some? && step.value.Err? ==> r == Some(Err(step.value.error)) && src.data == old(src.data))
    {
      if |src.data| == 0 {
        return Some(Ok(None));
      }
      if read.ReadFailed? {
        match read.kind {
          case InvalidDataRead => return Some(Ok(None));
          case InvalidMarkerRead => return Some(Ok(None));
          case Syntax => return Some(Ok(None));
          case OtherError(e) => return Some(Err(e));
        }
      }
      var m := RpcMessage.Decode(read.v, queue.inFlight, decodeAtom);
      if m.Err? {
        if m.error.Unimplemented? {
          return None;
        }
        return Some(Ok(None));
      }
      src.data := src.data[read.pos..];
      r := Some(Ok(Some(m.value)));
    }
  }

  /** A response for an id that is not in flight is never delivered: the
      read fails with a message-level error, which `decode` takes for
      "need more", so the buffer is left as it is. */
  lemma UnknownResponseStalls(src: seq<byte>, id: u32, error: Option<string>, results: Option<Atom>, pos: nat,
                              pending: map<u32, string>, decodeAtom: (string, Value) -> Result<Atom, string>)
    requires src != [] && id !in pending
    ensures DecodeStep(src, Read(Serialize(Response(id, error, results)), pos), pending, decodeAtom) == Some(Ok(None))
  {
    UnknownResponseRefused(id, error, results, pending, decodeAtom);
  }

  /** A request read in full is delivered and exactly its bytes consumed. */
  lemma RequestDelivered(src: seq<byte>, id: u32, params: Atom, pos: nat,
                         pending: map<u32, string>, decodeAtom: (string, Value) -> Result<Atom, string>)
    requires src != [] && decodeAtom(params.methodName, params.body) == Ok(params)
    ensures DecodeStep(src, Read(Serialize(Request(id, params)), pos), pending, decodeAtom) == Some(Ok(Some((Request(id, params), pos))))
  {
    RequestRoundTrip(id, params, pending, decodeAtom);
  }

  /** The reader has no branch for notifications: a serialised notification,
      read in full, makes `decode` panic. */
  lemma NotificationPanics(src: seq<byte>, params: Atom, pos: nat,
                           pending: map<u32, string>, decodeAtom: (string, Value) -> Result<Atom, string>)
    requires src != []
    ensures DecodeStep(src, Read(Serialize(Notification(params)), pos), pending, decodeAtom).None?
  {
    NotificationUnimplemented(params, pending, decodeAtom);
  }
}
