/** The wire format of the RPC example: a message is framed as a big-endian 32-bit id, one
    tag byte, a big-endian 32-bit payload length, and the payload. There are two writers and
    two readers of the format, one asynchronous and one blocking. */
module Codec {
  import opened Wrappers
  import opened Octets

  type U32 = x: nat | x < 0x1_0000_0000

  const LIMIT := 0x1_0000_0000

  datatype Error = UnexpectedEof | BadType(tag: Byte) | TooLong | Io

  datatype MessageType =
    | ClientRequest | ClientResponse | ServerPush
    | HeartbeatRequest | HeartbeatResponse
    | RpcRequest | RpcResponse

  datatype Message = Message(id: U32, kind: MessageType, bytes: seq<Byte>)

  // ----- tags and big-endian numbers

  // The discriminant of the enum.
  function Tag(kind: MessageType): Byte {
    match kind
    case ClientRequest => 0
    case ClientResponse => 1
    case ServerPush => 2
    case HeartbeatRequest => 3
    case HeartbeatResponse => 4
    case RpcRequest => 5
    case RpcResponse => 6
  }

  function FromTag(b: Byte): (r: Result<MessageType, Error>)
    ensures r.Ok? <==> exists kind :: Tag(kind) == b
    ensures r.Ok? ==> Tag(r.value) == b
    ensures r.Err? ==> r.error == BadType(b)
  {
    match b
    case 0 => assert Tag(ClientRequest) == b; Ok(ClientRequest)
    case 1 => assert Tag(ClientResponse) == b; Ok(ClientResponse)
    case 2 => assert Tag(ServerPush) == b; Ok(ServerPush)
    case 3 => assert Tag(HeartbeatRequest) == b; Ok(HeartbeatRequest)
    case 4 => assert Tag(HeartbeatResponse) == b; Ok(HeartbeatResponse)
    case 5 => assert Tag(RpcRequest) == b; Ok(RpcRequest)
    case 6 => assert Tag(RpcResponse) == b; Ok(RpcResponse)
    case _ => Err(BadType(b))
  }

  /** The numbers the types have on the wire. */
  lemma TagValues()
    ensures Tag(ClientRequest) == 0 && Tag(ClientResponse) == 1 && Tag(ServerPush) == 2
    ensures Tag(HeartbeatRequest) == 3 && Tag(HeartbeatResponse) == 4
    ensures Tag(RpcRequest) == 5 && Tag(RpcResponse) == 6
  {
  }

  function ToBe(x: U32): (bs: seq<Byte>)
    ensures |bs| == 4
  {
    var y := x / 0x100;
    var z := y / 0x100;
    [z / 0x100, z % 0x100, y % 0x100, x % 0x100]
  }

  function FromBe(bs: seq<Byte>): (x: U32)
    requires |bs| == 4
  {
    ((bs[0] as int * 0x100 + bs[1]) * 0x100 + bs[2]) * 0x100 + bs[3]
  }

  lemma FromBeToBe(x: U32)
    ensures FromBe(ToBe(x)) == x
  {
  }

  lemma Digit(q: nat, r: Byte)
    ensures (q * 0x100 + r) / 0x100 == q && (q * 0x100 + r) % 0x100 == r
  {
  }

  lemma ToBeFromBe(bs: seq<Byte>)
    requires |bs| == 4
    ensures ToBe(FromBe(bs)) == bs
  {
    var z := bs[0] as int * 0x100 + bs[1];
    var y := z * 0x100 + bs[2];
    Digit(y, bs[3]);
    Digit(z, bs[2]);
    Digit(bs[0], bs[1]);
  }

  // ----- frames

  predicate Sendable(m: Message) { |m.bytes| < LIMIT }

  function Encode(m: Message): seq<Byte>
    requires Sendable(m)
  {
    ToBe(m.id) + [Tag(m.kind)] + ToBe(|m.bytes|) + m.bytes
  }

  // The digits of a number in base 256, most significant first.
  predicate BigEndian(b0: Byte, b1: Byte, b2: Byte, b3: Byte, x: nat) {
    x == b0 as int * 0x100_0000 + b1 as int * 0x1_0000 + b2 as int * 0x100 + b3
  }

  lemma ToBeDigits(x: U32)
    ensures var bs := ToBe(x); BigEndian(bs[0], bs[1], bs[2], bs[3], x)
  {
  }

  /** Where every byte of a frame is: the id, most significant byte first, the tag, the length in
      the same way, and the payload. */
  lemma FrameBytes(m: Message)
    requires Sendable(m)
    ensures var s := Encode(m);
            && |s| == 9 + |m.bytes|
            && BigEndian(s[0], s[1], s[2], s[3], m.id) && s[4] == Tag(m.kind)
            && BigEndian(s[5], s[6], s[7], s[8], |m.bytes|)
            && forall i :: 0 <= i < |m.bytes| ==> s[9 + i] == m.bytes[i]
  {
    var s := Encode(m);
    ToBeDigits(m.id);
    ToBeDigits(|m.bytes|);
    assert s[..4] == ToBe(m.id) && s[5..9] == ToBe(|m.bytes|);
    assert s[0] == s[..4][0] && s[1] == s[..4][1] && s[2] == s[..4][2] && s[3] == s[..4][3];
    assert s[5] == s[5..9][0] && s[6] == s[5..9][1] && s[7] == s[5..9][2] && s[8] == s[5..9][3];
  }

  // A frame read off the front of a stream, and what follows it.
  datatype Frame = Frame(m: Message, rest: seq<Byte>)

  function Decode(s: seq<Byte>): Result<Frame, Error> {
    if |s| < 4 then Err(UnexpectedEof)
    else if |s| < 5 then Err(UnexpectedEof)
    else
      var kind :- FromTag(s[4]);
      if |s| < 9 then Err(UnexpectedEof)
      else
        var size := FromBe(s[5..9]);
        if |s| < 9 + size then Err(UnexpectedEof)
        else Ok(Frame(Message(FromBe(s[..4]), kind, s[9..9 + size]), s[9 + size..]))
  }

  /** Decoding and encoding are inverse: what a frame was encoded from is what is decoded,
      whatever follows it, and everything that decodes is the encoding of the result. */
  lemma DecodeInvertsEncode(s: seq<Byte>, m: Message, rest: seq<Byte>)
    ensures Decode(s) == Ok(Frame(m, rest)) <==> Sendable(m) && s == Encode(m) + rest
  {
    if Sendable(m) && s == Encode(m) + rest {
      FromBeToBe(m.id);
      FromBeToBe(|m.bytes|);
      assert s[..4] == ToBe(m.id);
      assert s[5..9] == ToBe(|m.bytes|);
      assert s[9..9 + |m.bytes|] == m.bytes;
      assert s[9 + |m.bytes|..] == rest;
    }
    if Decode(s) == Ok(Frame(m, rest)) {
      ToBeFromBe(s[..4]);
      ToBeFromBe(s[5..9]);
      assert s == s[..4] + [s[4]] + s[5..9] + m.bytes + rest;
    }
  }

  /** A frame that was cut short is rejected, wherever it was cut. */
  lemma TruncatedFrame(m: Message, k: nat)
    requires Sendable(m) && k < |Encode(m)|
    ensures Decode(Encode(m)[..k]) == Err(UnexpectedEof)
  {
    var s := Encode(m);
    FromBeToBe(|m.bytes|);
    if 9 <= k {
      assert s[..k][5..9] == s[5..9] == ToBe(|m.bytes|);
    }
  }

  /** An unknown tag is reported as soon as it is read, whatever follows; what ends before its
      tag, or too soon after a known one, is reported as the end of the stream. */
  lemma UnknownTag(s: seq<Byte>)
    ensures Decode(s).Err? && Decode(s).error.BadType? <==> 5 <= |s| && s[4] > 6
    ensures 5 <= |s| && s[4] > 6 ==> Decode(s).error.tag == s[4]
    ensures Decode(s).Err? && !Decode(s).error.BadType? ==> Decode(s).error == UnexpectedEof
    ensures |s| < 9 ==> Decode(s).Err?
  {
  }

  // ----- streams of frames

  function EncodeAll(ms: seq<Message>): seq<Byte>
    requires forall m :: m in ms ==> Sendable(m)
  {
    if ms == [] then [] else Encode(ms[0]) + EncodeAll(ms[1..])
  }

  // Everything a reader gets out of a stream before it gives up, and why it gives up.
  datatype Reading = Reading(ms: seq<Message>, end: Error)

  function DecodeAll(s: seq<Byte>): Reading
    decreases |s|
  {
    match Decode(s)
    case Err(e) => Reading([], e)
    case Ok(f) => var r := DecodeAll(f.rest); Reading([f.m] + r.ms, r.end)
  }

  lemma {:induction false} EncodeAllSnoc(ms: seq<Message>, m: Message)
    requires (forall x :: x in ms ==> Sendable(x)) && Sendable(m)
    ensures EncodeAll(ms + [m]) == EncodeAll(ms) + Encode(m)
  {
    if ms == [] {
      assert [] + [m] == [m] && [m][1..] == [];
    } else {
      assert (ms + [m])[1..] == ms[1..] + [m];
      EncodeAllSnoc(ms[1..], m);
    }
  }

  // How many whole frames the first `k` bytes of a stream hold.
  function Whole(ms: seq<Message>, k: nat): (n: nat)
    requires forall m :: m in ms ==> Sendable(m)
    ensures n <= |ms|
  {
    if ms == [] || k < |Encode(ms[0])| then 0 else 1 + Whole(ms[1..], k - |Encode(ms[0])|)
  }

  lemma DecodeFirst(m: Message, t: seq<Byte>)
    requires Sendable(m)
    ensures DecodeAll(Encode(m) + t) == Reading([m] + DecodeAll(t).ms, DecodeAll(t).end)
  {
    DecodeInvertsEncode(Encode(m) + t, m, t);
  }

  lemma FirstFrame(ms: seq<Message>, t: seq<Byte>)
    requires (forall m :: m in ms ==> Sendable(m)) && ms != []
    ensures EncodeAll(ms) + t == Encode(ms[0]) + (EncodeAll(ms[1..]) + t)
  {
    var head, tail := Encode(ms[0]), EncodeAll(ms[1..]);
    assert (head + tail) + t == head + (tail + t);
  }

  lemma FirstAndRest<T>(xs: seq<T>, ys: seq<T>)
    requires xs != []
    ensures [xs[0]] + (xs[1..] + ys) == xs + ys
  {
  }

  // Whole frames first, whatever follows them.
  lemma {:induction false} DecodeFrames(ms: seq<Message>, t: seq<Byte>, s: seq<Byte>)
    requires (forall m :: m in ms ==> Sendable(m)) && s == EncodeAll(ms) + t
    ensures DecodeAll(s).ms == ms + DecodeAll(t).ms && DecodeAll(s).end == DecodeAll(t).end
  {
    if ms == [] {
      assert s == t;
    } else {
      var u := EncodeAll(ms[1..]) + t;
      FirstFrame(ms, t);
      DecodeFrames(ms[1..], t, u);
      DecodeFirst(ms[0], u);
      FirstAndRest(ms, DecodeAll(t).ms);
    }
  }

  lemma FirstOfPrefix<T>(xs: seq<T>, n: nat)
    requires n < |xs|
    ensures xs[..n + 1] == [xs[0]] + xs[1..][..n]
  {
  }

  lemma DecodeTruncated(m: Message, k: nat)
    requires Sendable(m) && k < |Encode(m)|
    ensures DecodeAll(Encode(m)[..k]) == Reading([], UnexpectedEof)
  {
    TruncatedFrame(m, k);
  }

  /** The stream round trip, with the connection cut anywhere: after any `k` bytes of the
      frames of `ms` the reader has exactly the messages whose frames arrived whole, in
      order, and ends with an end-of-file error. */
  lemma {:induction false} StreamRoundTrip(ms: seq<Message>, k: nat)
    requires (forall m :: m in ms ==> Sendable(m)) && k <= |EncodeAll(ms)|
    ensures DecodeAll(EncodeAll(ms)[..k]) == Reading(ms[..Whole(ms, k)], UnexpectedEof)
    ensures k == |EncodeAll(ms)| ==> Whole(ms, k) == |ms|
  {
    if ms == [] {
      assert Decode([]) == Err(UnexpectedEof);
    } else {
      var head, tail := Encode(ms[0]), EncodeAll(ms[1..]);
      if k < |head| {
        DecodeTruncated(ms[0], k);
        assert (head + tail)[..k] == head[..k];
      } else {
        var j := k - |head|;
        assert (head + tail)[..k] == head + tail[..j];
        DecodeFirst(ms[0], tail[..j]);
        StreamRoundTrip(ms[1..], j);
        FirstOfPrefix(ms, Whole(ms[1..], j));
      }
    }
  }

  /** No stream is read in two ways: whatever the reader gets out of any bytes at all, these
      are the bytes it was encoded to, followed by something that is not a frame. */
  lemma {:induction false} ReadingIsExact(s: seq<Byte>)
    ensures var r := DecodeAll(s);
            (forall m :: m in r.ms ==> Sendable(m)) &&
            EncodeAll(r.ms) <= s && Decode(s[|EncodeAll(r.ms)|..]) == Err(r.end)
    decreases |s|
  {
    match Decode(s) {
      case Err(_) =>
        assert s[0..] == s;
      case Ok(f) =>
        DecodeInvertsEncode(s, f.m, f.rest);
        ReadingIsExact(f.rest);
        var r := DecodeAll(s);
        var q := DecodeAll(f.rest);
        assert r.ms[1..] == q.ms;
        assert s[|EncodeAll(r.ms)|..] == f.rest[|EncodeAll(q.ms)|..];
    }
  }

  // ----- connections

  predicate Fits(room: nat, sent: seq<Byte>, bs: seq<Byte>) { |sent| + |bs| <= room }

  // What is on a connection that breaks after `room` bytes once `bs` was written after `sent`.
  function Onto(room: nat, sent: seq<Byte>, bs: seq<Byte>): (r: seq<Byte>)
    ensures |sent| <= room ==> |r| <= room
    ensures sent <= r <= sent + bs
  {
    if Fits(room, sent, bs) then sent + bs
    else if |sent| <= room then sent + bs[..room - |sent|]
    else sent
  }

  // ----- the asynchronous and the blocking writer

  // The asynchronous writer gets this far before it finds the payload too long.
  function Prelude(m: Message): seq<Byte> { ToBe(m.id) + [Tag(m.kind)] }

  lemma PreludeBytes(m: Message)
    ensures var s := Prelude(m); |s| == 5 && BigEndian(s[0], s[1], s[2], s[3], m.id) && s[4] == Tag(m.kind)
  {
    ToBeDigits(m.id);
  }

  // What a writer of either kind puts on a connection that takes it all.
  function Wanted(m: Message): seq<Byte> { if Sendable(m) then Encode(m) else Prelude(m) }

  function WantedBlocking(m: Message): seq<Byte> { if Sendable(m) then Encode(m) else [] }

  // What it leaves on one that may break.
  function Sent(room: nat, sent: seq<Byte>, m: Message): seq<Byte> { Onto(room, sent, Wanted(m)) }

  function SentBlocking(room: nat, sent: seq<Byte>, m: Message): seq<Byte> { Onto(room, sent, WantedBlocking(m)) }

  /** The two writers do the same to any connection with room left, broken or not, exactly
      for the payloads the format can carry; beyond them the asynchronous writer leaves part
      of a frame on the connection. */
  lemma WritersAgree(room: nat, sent: seq<Byte>, m: Message)
    requires |sent| < room
    ensures Sent(room, sent, m) == SentBlocking(room, sent, m) <==> Sendable(m)
  {
    if !Sendable(m) {
      assert |Sent(room, sent, m)| > |sent|;
    }
  }

  // ----- reading and writing in place

  class Writer {
    const room: nat
    var written: seq<Byte>

    ghost predicate Valid()
      reads this
    {
      |written| <= room
    }

    constructor (room: nat)
      ensures Valid() && this.room == room && written == []
    {
      this.room := room;
      written := [];
    }

    method WriteAll(bs: seq<Byte>) returns (r: Result<(), Error>)
      requires Valid()
      modifies this
      ensures Valid() && written == Onto(room, old(written), bs)
      ensures r == if Fits(room, old(written), bs) then Ok(()) else Err(Io)
    {
      if |written| + |bs| <= room {
        written := written + bs;
        return Ok(());
      }
      written := written + bs[..room - |written|];
      return Err(Io);
    }
  }

  // The read half of a connection over which `stream` arrives.
  class Reader {
    const stream: seq<Byte>
    var pos: nat

    ghost predicate Valid()
      reads this
    {
      pos <= |stream|
    }

    constructor (stream: seq<Byte>)
      ensures Valid() && this.stream == stream && Unread() == stream
    {
      this.stream := stream;
      pos := 0;
    }

    ghost function Unread(): seq<Byte>
      requires Valid()
      reads this
    {
      stream[pos..]
    }

    method ReadExact(n: nat) returns (r: Result<seq<Byte>, Error>)
      requires Valid()
      modifies this
      ensures Valid()
      ensures if n <= |old(Unread())| then r == Ok(old(Unread())[..n]) && Unread() == old(Unread())[n..]
              else r == Err(UnexpectedEof) && Unread() == []
    {
      if pos + n <= |stream| {
        var buffer := stream[pos..pos + n];
        assert buffer == Unread()[..n];
        assert stream[pos + n..] == Unread()[n..];
        pos := pos + n;
        return Ok(buffer);
      }
      pos := |stream|;
      return Err(UnexpectedEof);
    }
  }

  method ReadU32(r: Reader) returns (x: Result<U32, Error>)
    requires r.Valid()
    modifies r
    ensures r.Valid()
    ensures if 4 <= |old(r.Unread())|
            then x == Ok(FromBe(old(r.Unread())[..4])) && r.Unread() == old(r.Unread())[4..]
            else x == Err(UnexpectedEof)
    ensures x.Ok? ==> var s := old(r.Unread()); BigEndian(s[0], s[1], s[2], s[3], x.value)
  {
    var buffer :- r.ReadExact(4);
    return Ok(FromBe(buffer));
  }

  // Both readers: their bodies differ only in how they wait for bytes.
  method Receive(r: Reader) returns (m: Result<Message, Error>)
    requires r.Valid()
    modifies r
    ensures r.Valid()
    ensures match Decode(old(r.Unread()))
            case Ok(f) => m == Ok(f.m) && r.Unread() == f.rest
            case Err(e) => m == Err(e)
  {
    ghost var s := r.Unread();
    var id :- ReadU32(r);
    var tag :- r.ReadExact(1);
    assert tag == [s[4]];
    var kind :- FromTag(tag[0]);
    var size :- ReadU32(r);
    assert s[5..][..4] == s[5..9];
    assert s[4..][1..] == s[5..] && s[5..][4..] == s[9..];
    if 9 + size <= |s| {
      assert s[9..][..size] == s[9..9 + size] && s[9..][size..] == s[9 + size..];
    }
    var buffer :- r.ReadExact(size);
    return Ok(Message(id, kind, buffer));
  }
}
