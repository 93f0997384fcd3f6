/** The length-prefixed framing of lavish-rpc/src/system/codec.rs.  A frame
    is the payload's length, written as a MessagePack unsigned integer (the
    "int format family" of the MessagePack specification, in its shortest
    form), followed by the payload bytes.  The payload itself is the
    message's MessagePack encoding, which is passed in as bytes. */
module RpcFraming {
  import opened Common

  newtype byte = x: int | 0 <= x < 256

  /** `MAX_MESSAGE_SIZE`: the scratch buffer the payload is serialised into. */
  const MaxMessageSize: nat := 128 * 1024

  const Pow64: nat := 18446744073709551616

  function Pow256(k: nat): (r: nat)
    ensures r >= 1
  {
    if k == 0 then 1 else 256 * Pow256(k - 1)
  }

  lemma Pow256Values()
    ensures Pow256(1) == 256 && Pow256(2) == 65536 && Pow256(4) == 4294967296 && Pow256(8) == Pow64
  {
    assert Pow256(2) == 65536;
    assert Pow256(3) == 16777216;
    assert Pow256(4) == 4294967296;
    assert Pow256(6) == 281474976710656;
  }

  /** `n` as `k` big-endian bytes. */
  function BigEndian(n: nat, k: nat): (r: seq<byte>)
    requires n < Pow256(k)
    ensures |r| == k
  {
    if k == 0 then [] else BigEndian(n / 256, k - 1) + [(n % 256) as byte]
  }

  function FromBigEndian(s: seq<byte>): nat
  {
    if s == [] then 0 else FromBigEndian(s[..|s| - 1]) * 256 + s[|s| - 1] as nat
  }

  /** Reading back the big-endian bytes gives the number. */
  lemma {:induction false} BigEndianRoundTrip(n: nat, k: nat)
    requires n < Pow256(k)
    ensures FromBigEndian(BigEndian(n, k)) == n
  {
    if k > 0 {
      var s := BigEndian(n, k);
      assert s[..|s| - 1] == BigEndian(n / 256, k - 1);
      BigEndianRoundTrip(n / 256, k - 1);
    }
  }

  /** Any `k` bytes read as a number below `Pow256(k)`. */
  lemma {:induction false} FromBigEndianBound(s: seq<byte>)
    ensures FromBigEndian(s) < Pow256(|s|)
  {
    if s != [] {
      FromBigEndianBound(s[..|s| - 1]);
    }
  }

  /** The shortest MessagePack encoding of an unsigned 64-bit integer:
      positive fixint, then uint 8, 16, 32 and 64 (markers 0xcc..0xcf). */
  function EncodeUint(n: nat): (r: seq<byte>)
    requires n < Pow64
    ensures 1 <= |r| <= 9
  {
    Pow256Values();
    if n < 128 then [n as byte]
    else if n < 256 then [0xcc] + BigEndian(n, 1)
    else if n < 65536 then [0xcd] + BigEndian(n, 2)
    else if n < 4294967296 then [0xce] + BigEndian(n, 4)
    else [0xcf] + BigEndian(n, 8)
  }

  /** The width of the big-endian number following an unsigned-integer
      marker. */
  function UintWidth(marker: byte): Option<nat>
  {
    if marker == 0xcc then Some(1)
    else if marker == 0xcd then Some(2)
    else if marker == 0xce then Some(4)
    else if marker == 0xcf then Some(8)
    else None
  }

  /** Reading an unsigned integer at the start of `s`: the value and the
      number of bytes it took, or `None` when the first byte is not an
      unsigned-integer marker or the bytes run out. */
  function DecodeUint(s: seq<byte>): (r: Option<(nat, nat)>)
    ensures r.Some? ==> 1 <= r.value.1 <= |s| && r.value.1 <= 9 && r.value.0 < Pow64
  {
    Pow256Values();
    if s == [] then None
    else if s[0] < 128 then Some((s[0] as nat, 1))
    else
      match UintWidth(s[0])
      case None => None
      case Some(w) =>
        if |s| < 1 + w then None
        else
          FromBigEndianBound(s[1..1 + w]);
          Some((FromBigEndian(s[1..1 + w]), 1 + w))
  }

  /** A marker followed by its big-endian number reads back as that number. */
  lemma {:induction false} MarkedRoundTrip(marker: byte, w: nat, n: nat, rest: seq<byte>)
    requires 128 <= marker as nat && UintWidth(marker) == Some(w) && n < Pow256(w)
    ensures DecodeUint([marker] + BigEndian(n, w) + rest) == Some((n, 1 + w))
  {
    var s := [marker] + BigEndian(n, w) + rest;
    assert s[1..1 + w] == BigEndian(n, w);
    BigEndianRoundTrip(n, w);
  }

  /** Decoding reads back what encoding wrote, whatever follows it. */
  lemma UintRoundTrip(n: nat, rest: seq<byte>)
    requires n < Pow64
    ensures DecodeUint(EncodeUint(n) + rest) == Some((n, |EncodeUint(n)|))
  {
    Pow256Values();
    if n < 128 {
    } else if n < 256 {
      MarkedRoundTrip(0xcc, 1, n, rest);
    } else if n < 65536 {
      MarkedRoundTrip(0xcd, 2, n, rest);
    } else if n < 4294967296 {
      MarkedRoundTrip(0xce, 4, n, rest);
    } else {
      MarkedRoundTrip(0xcf, 8, n, rest);
    }
  }

  /** A frame: the length prefix, then the payload. */
  function Frame(payload: seq<byte>): (r: seq<byte>)
    requires |payload| < Pow64
  {
    EncodeUint(|payload|) + payload
  }

  /** What `decode` makes of the bytes received so far.  `SizeOverflow` is
      a length prefix whose size plus the announced payload size does not
      fit a 64-bit `usize`: `len_len + payload_len` then panics (or, where
      arithmetic wraps, the slice up to the wrapped total does). */
  datatype FrameState =
    | Empty
    | BadLength
    | SizeOverflow
    | Incomplete(needed: nat)
    | Complete(lenLen: nat, payloadLen: nat)

  function ReadFrame(src: seq<byte>): (r: FrameState)
    ensures r.Complete? ==> r.lenLen + r.payloadLen <= |src|
    ensures r.Incomplete? ==> |src| < r.needed < Pow64
  {
    if src == [] then Empty
    else
      match DecodeUint(src)
      case None => BadLength
      case Some((payloadLen, lenLen)) =>
        if lenLen + payloadLen >= Pow64 then SizeOverflow
        else if |src| < lenLen + payloadLen then Incomplete(lenLen + payloadLen)
        else Complete(lenLen, payloadLen)
  }

  /** The largest length a `u64` prefix can announce overflows the total:
      nine prefix bytes plus 2^64 - 1 payload bytes. */
  lemma LargestLengthOverflows(rest: seq<byte>)
    ensures ReadFrame([0xcf] + BigEndian(Pow64 - 1, 8) + rest) == SizeOverflow
  {
    Pow256Values();
    MarkedRoundTrip(0xcf, 8, Pow64 - 1, rest);
  }

  /** A frame followed by anything is read as exactly that frame: the size
      `decode` consumes is the size `encode` wrote.  (A frame whose total
      size does not fit a `usize` is the panic of `LargestLengthOverflows`.) */
  lemma FrameRoundTrip(payload: seq<byte>, rest: seq<byte>)
    requires |payload| < Pow64 - 9
    ensures var f := Frame(payload) + rest;
      && ReadFrame(f) == Complete(|EncodeUint(|payload|)|, |payload|)
      && f[|EncodeUint(|payload|)|..|Frame(payload)|] == payload
      && f[|Frame(payload)|..] == rest
  {
    var e := EncodeUint(|payload|);
    assert Frame(payload) + rest == e + (payload + rest);
    UintRoundTrip(|payload|, payload + rest);
  }

  /** A frame cut short is reported as incomplete, not as an error, once its
      length prefix is there. */
  lemma ShortFrameIncomplete(payload: seq<byte>, n: nat)
    requires |payload| < Pow64 - 9
    requires |EncodeUint(|payload|)| <= n < |Frame(payload)|
    ensures ReadFrame(Frame(payload)[..n]) == Incomplete(|Frame(payload)|)
  {
    var e := EncodeUint(|payload|);
    var s := Frame(payload)[..n];
    assert s == e + s[|e|..];
    UintRoundTrip(|payload|, s[|e|..]);
  }

  /** `SizeOverflowPanic` stands for the panic of `decode` on a frame whose
      total size overflows `usize`. */
  datatype CodecError = PayloadTooLarge | BadLengthPrefix | SizeOverflowPanic | BadPayload(reason: string)

  /** The byte buffer `encode` fills and `decode` consumes from. */
  class ByteBuf {
    var data: seq<byte>

    constructor(data: seq<byte>)
      ensures this.data == data
    {
      this.data := data;
    }
  }

  class Codec {
    var buffer: array<byte>

    ghost predicate Valid()
      reads this
    {
      buffer.Length == MaxMessageSize
    }

    /** `Codec::new`: a zeroed scratch buffer of `MAX_MESSAGE_SIZE` bytes. */
    constructor()
      ensures Valid() && fresh(buffer)
      ensures forall k :: 0 <= k < buffer.Length ==> buffer[k] == 0
    {
      buffer := new byte[MaxMessageSize](_ => 0);
    }

    /** `encode`: the payload goes through the scratch buffer; when it does
        not fit the serialiser fails and `dst` is left alone; otherwise
        `dst` becomes exactly the length prefix and the payload. */
    method Encode(payload: seq<byte>, dst: ByteBuf) returns (r: Result<(), CodecError>)
      requires Valid()
      modifies buffer, dst
      ensures Valid()
      ensures |payload| > MaxMessageSize ==> r == Err(PayloadTooLarge) && dst.data == old(dst.data)
      ensures |payload| <= MaxMessageSize ==> r.Ok? && dst.data == Frame(payload)
    {
      var n := if |payload| <= MaxMessageSize then |payload| else MaxMessageSize;
      for i := 0 to n
        invariant buffer[..i] == payload[..i]
        invariant dst.data == old(dst.data)
      {
        buffer[i] := payload[i];
      }
      if |payload| > MaxMessageSize {
        return Err(PayloadTooLarge);
      }
      assert buffer[..n] == payload;
      var lengthSlice := EncodeUint(|payload|);
      dst.data := lengthSlice + buffer[..n];
      r := Ok(());
    }

    /** `decode`: nothing on an empty buffer; an error when the length prefix
        cannot be read; nothing, and nothing consumed, while the frame is
        incomplete; otherwise the payload is deserialised and, on success,
        exactly the frame is consumed. */
    method Decode<T>(src: ByteBuf, deserialize: seq<byte> -> Result<T, string>) returns (r: Result<Option<T>, CodecError>)
      modifies src
      ensures var st := ReadFrame(old(src.data));
        && (st.Empty? || st.Incomplete? ==> r == Ok(None) && src.data == old(src.data))
        && (st.BadLength? ==> r == Err(BadLengthPrefix) && src.data == old(src.data))
        && (st.SizeOverflow? ==> r == Err(SizeOverflowPanic) && src.data == old(src.data))
        && (st.Complete? ==>
              var payload := old(src.data)[st.lenLen..st.lenLen + st.payloadLen];
              match deserialize(payload)
              case Ok(m) => r == Ok(Some(m)) && src.data == old(src.data)[st.lenLen + st.payloadLen..]
              case Err(e) => r == Err(BadPayload(e)) && src.data == old(src.data))
    {
      if |src.data| == 0 {
        return Ok(None);
      }
      var prefix := DecodeUint(src.data);
      if prefix.None? {
        return Err(BadLengthPrefix);
      }
      var payloadLen := prefix.value.0;
      var lenLen := prefix.value.1;
      if lenLen + payloadLen >= Pow64 {
        return Err(SizeOverflowPanic);
      }
      var totalLen := lenLen + payloadLen;
      if |src.data| < totalLen {
        return Ok(None);
      }
      var res := deserialize(src.data[lenLen..totalLen]);
      if res.Err? {
        return Err(BadPayload(res.error));
      }
      src.data := src.data[totalLen..];
      r := Ok(Some(res.value));
    }
  }

  /** Encoding then decoding with a deserialiser that inverts the
      serialiser gives the message back and leaves what followed. */
  method EncodeThenDecode<T>(m: T, serialize: T -> seq<byte>, deserialize: seq<byte> -> Result<T, string>, rest: seq<byte>)
    returns (back: Result<Option<T>, CodecError>, left: seq<byte>)
    requires |serialize(m)| <= MaxMessageSize
    requires deserialize(serialize(m)) == Ok(m)
    ensures back == Ok(Some(m)) && left == rest
  {
    var codec := new Codec();
    var dst := new ByteBuf([]);
    var _ := codec.Encode(serialize(m), dst);
    FrameRoundTrip(serialize(m), rest);
    var src := new ByteBuf(dst.data + rest);
    back := codec.Decode(src, deserialize);
    left := src.data;
  }
}
