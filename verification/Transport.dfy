// The WebSocket connection: envelope framing, the writer that wraps each message in
// a batch, a payload and an envelope, and the reader that flattens them again.
module Transport {
  import opened Basics
  import Varint
  import opened Messages
  import Codec

  // Envelope types.
  const AUTHENTICATE := 1
  const SUBSCRIBE := 2
  const PAYLOAD := 6

  // ---- Envelope -------------------------------------------------------------------

  // [type: 1 byte] [length: varint] [data]
  function Envelope(msgType: int32, data: seq<byte>): seq<byte> {
    [msgType % 256] + Varint.Encode(|data|) + data
  }

  method EncodeEnvelope(msgType: int32, data: seq<byte>) returns (buf: seq<byte>)
    ensures buf == Envelope(msgType, data)
  {
    buf := [];
    buf := buf + [msgType % 256];
    buf := buf + Varint.Encode(|data|);
    buf := buf + data;
  }

  datatype Framed = Framed(msgType: byte, data: seq<byte>)

  // The header split of `parse_envelope`: nothing for an empty buffer, a bad length
  // varint, or fewer bytes than the length says. Bytes after the data are ignored.
  function SplitEnvelope(buf: seq<byte>): Option<Framed> {
    if buf == [] then None
    else
      match Varint.Decode(buf[1..])
      case None => None
      case Some(Read(len, n)) =>
        if |buf| < 1 + n + len then None else Some(Framed(buf[0], buf[1 + n..1 + n + len]))
  }

  // A QConnect batch for a payload envelope with a readable batch inside, else nothing.
  function ParseEnvelope(buf: seq<byte>): Option<QConnectBatch> {
    match SplitEnvelope(buf)
    case None => None
    case Some(Framed(msgType, data)) =>
      if msgType != PAYLOAD then None
      else
        match Codec.DecodePayload(data)
        case None => None
        case Some(p) => if p.payload.None? then None else Codec.DecodeBatch(p.payload.value)
  }

  // ---- Reader -------------------------------------------------------------------------

  datatype WsMessage = Binary(data: seq<byte>) | Close | Ping | Pong | Text | RawFrame

  // What the socket yields: a message, or an error that ends the stream.
  datatype WsItem = Received(msg: WsMessage) | Failed(error: string)

  datatype StreamItem = Message(m: QConnectMessage) | StreamError(error: string)

  function AsItems(ms: seq<QConnectMessage>): seq<StreamItem> {
    seq(|ms|, i requires 0 <= i < |ms| => Message(ms[i]))
  }

  // The messages one socket message contributes.
  function MessagesOf(w: WsMessage): seq<QConnectMessage> {
    if !w.Binary? then []
    else
      match ParseEnvelope(w.data)
      case None => []
      case Some(batch) => batch.messages
  }

  function Stream(items: seq<WsItem>): seq<StreamItem> {
    if items == [] then []
    else
      match items[0]
      case Failed(e) => [StreamError(e)]
      case Received(Close) => []
      case Received(w) => AsItems(MessagesOf(w)) + Stream(items[1..])
  }

  class ConnectionReader {
    var ws: seq<WsItem>  // what the socket has still to yield

    constructor (ws: seq<WsItem>)
      ensures this.ws == ws
    {
      this.ws := ws;
    }

    method IntoStream() returns (out: seq<StreamItem>)
      modifies this
      ensures out == Stream(old(ws))
    {
      hide ParseEnvelope, AsItems, Stream;
      out := [];
      StreamEnds([]);
      while ws != []
        invariant Stream(old(ws)) == out + Stream(ws)
        decreases |ws|
      {
        var item, rest := ws[0], ws[1..];
        assert ws == [item] + rest;
        StreamEnds(rest);
        ws := rest;
        match item
        case Failed(e) =>
          out := out + [StreamError(e)];
          return;
        case Received(msg) =>
          match msg
          case Binary(data) =>
            StreamAfterBinary(data, ws);
            var batch := ParseEnvelope(data);
            if batch.Some? {
              out := YieldAll(out, batch.value.messages);
            }
          case Close =>
            return;
          case Ping =>
            StreamAfterIgnored(msg, ws);
          case Pong =>
            StreamAfterIgnored(msg, ws);
          case Text =>
            StreamAfterIgnored(msg, ws);
          case RawFrame =>
            StreamAfterIgnored(msg, ws);
      }
    }

    method YieldAll(out: seq<StreamItem>, ms: seq<QConnectMessage>) returns (longer: seq<StreamItem>)
      ensures longer == out + AsItems(ms)
    {
      longer := out;
      for i := 0 to |ms|
        invariant longer == out + AsItems(ms[..i])
      {
        longer := longer + [Message(ms[i])];
        assert AsItems(ms[..i + 1]) == AsItems(ms[..i]) + [Message(ms[i])];
      }
      assert ms[..|ms|] == ms;
    }
  }

  // What ends a stream: nothing more to come, a failure, a Close.
  lemma StreamEnds(rest: seq<WsItem>)
    ensures Stream([]) == []
    ensures forall e :: Stream([Failed(e)] + rest) == [StreamError(e)]
    ensures Stream([Received(Close)] + rest) == []
  {
  }

  lemma StreamAfterBinary(data: seq<byte>, rest: seq<WsItem>)
    ensures Stream([Received(Binary(data))] + rest) ==
      (if ParseEnvelope(data).Some? then AsItems(ParseEnvelope(data).value.messages) else []) + Stream(rest)
  {
    hide ParseEnvelope;
    assert ([Received(Binary(data))] + rest)[1..] == rest;
  }

  lemma StreamAfterIgnored(w: WsMessage, rest: seq<WsItem>)
    requires !w.Binary? && !w.Close?
    ensures Stream([Received(w)] + rest) == Stream(rest)
  {
    assert ([Received(w)] + rest)[1..] == rest;
    assert AsItems([]) + Stream(rest) == Stream(rest);
  }

  // ---- Writer ---------------------------------------------------------------------------

  // The outcome of one attempt to write: whether the socket took it, and the clock
  // readings that went into it.
  datatype Io = Io(ok: bool, messagesTime: uint64, msgDate: uint64)

  type Network = nat -> Io

  // `msg_id += 1` on a u32, wrapping.
  function NextId(id: uint32): uint32 {
    AsUint32(id + 1)
  }

  function BatchOf(id: uint32, m: QConnectMessage, io: Io): QConnectBatch {
    QConnectBatch(Some(io.messagesTime), Some(AsInt32(id)), [m])
  }

  function PayloadOf(id: uint32, m: QConnectMessage, io: Io): Payload
    requires ValidMessage(m)
  {
    Payload(Some(NextId(id)), Some(io.msgDate), Some(1), None, [], Some(Codec.EncodeBatch(BatchOf(id, m, io))))
  }

  // The bytes written for `m` when the last message id was `id`.
  function FrameOf(id: uint32, m: QConnectMessage, io: Io): seq<byte>
    requires ValidMessage(m)
  {
    Envelope(PAYLOAD, Codec.EncodePayload(PayloadOf(id, m, io)))
  }

  class ConnectionWriter {
    const net: Network
    const startId: uint32
    var msgId: uint32
    var frames: seq<seq<byte>>  // everything handed to the socket, failed writes included
    ghost var sent: seq<QConnectMessage>  // the messages those frames were made from

    ghost predicate Valid()
      reads this
    {
      && Codec.AllValid(sent)
      && msgId == AsUint32(startId + |sent|)
      && frames == FramesOf(startId, sent, net, 0)
    }

    constructor (net: Network, msgId: uint32)
      ensures Valid() && this.net == net && startId == msgId && frames == [] && sent == []
    {
      hide FrameOf, ValidMessage, AsUint32;
      this.net := net;
      this.startId := msgId;
      this.msgId := msgId;
      frames := [];
      sent := [];
      IdAfter(msgId, 0);
    }

    method NextMsgId() returns (id: uint32)
      modifies this`msgId
      ensures msgId == NextId(old(msgId)) && id == msgId
    {
      msgId := AsUint32(msgId + 1);
      id := msgId;
    }

    // Wraps a message in batch, payload and envelope under the next id.
    method Wrap(m: QConnectMessage, io: Io) returns (buf: seq<byte>)
      requires ValidMessage(m)
      modifies this`msgId
      ensures msgId == NextId(old(msgId)) && buf == FrameOf(old(msgId), m, io)
    {
      hide Codec.EncodeBatch, Codec.EncodePayload, ValidMessage;
      var batch := QConnectBatch(Some(io.messagesTime), Some(AsInt32(msgId)), [m]);
      var id := NextMsgId();
      var payload := Payload(Some(id), Some(io.msgDate), Some(1), None, [], Some(Codec.EncodeBatch(batch)));
      buf := EncodeEnvelope(PAYLOAD, Codec.EncodePayload(payload));
    }

    // The id is spent whether or not the write succeeds.
    method Send(m: QConnectMessage) returns (ok: bool)
      requires Valid() && ValidMessage(m)
      modifies this
      ensures Valid() && sent == old(sent) + [m]
      ensures ok == net(|old(sent)|).ok
    {
      hide FrameOf, ValidMessage, FramesOf;
      var io := net(|frames|);
      FramesExtended(startId, sent, m, net, 0);
      var buf := Wrap(m, io);
      frames := frames + [buf];
      sent := sent + [m];
      ok := io.ok;
    }
  }

  lemma {:induction false} FramesExtended(
      id: uint32, ms: seq<QConnectMessage>, m: QConnectMessage, net: Network, from: nat)
    requires Codec.AllValid(ms)
    requires ValidMessage(m)
    ensures Codec.AllValid(ms + [m])
    ensures FramesOf(id, ms + [m], net, from)
         == FramesOf(id, ms, net, from) + [FrameOf(AsUint32(id + |ms|), m, net(from + |ms|))]
    decreases |ms|
  {
    hide ValidMessage, FrameOf, AsUint32;
    IdAfter(id, |ms|);
    if ms != [] {
      assert (ms + [m])[0] == ms[0] && (ms + [m])[1..] == ms[1..] + [m];
      FramesExtended(NextId(id), ms[1..], m, net, from + 1);
      assert (from + 1) + |ms[1..]| == from + |ms|;
    }
  }

  lemma IdAfter(id: uint32, n: nat)
    ensures n > 0 ==> AsUint32(NextId(id) + (n - 1)) == AsUint32(id + n)
    ensures AsUint32(id) == id
  {
  }

  // The frames of a writer that started after message id `id` and its `from`-th write.
  function FramesOf(id: uint32, ms: seq<QConnectMessage>, net: Network, from: nat): (frames: seq<seq<byte>>)
    requires Codec.AllValid(ms)
    ensures |frames| == |ms|
    decreases |ms|
  {
    if ms == [] then []
    else [FrameOf(id, ms[0], net(from))] + FramesOf(NextId(id), ms[1..], net, from + 1)
  }

  function Deliver(frames: seq<seq<byte>>): seq<WsItem> {
    seq(|frames|, i requires 0 <= i < |frames| => Received(Binary(frames[i])))
  }
}
