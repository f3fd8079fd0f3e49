// Setting a connection up: authenticate, subscribe, join the session, split.
module Setup {
  import opened Basics
  import opened Wire
  import WireTheorems
  import opened Messages
  import Codec
  import opened Transport
  import TransportTheorems

  const AUTHENTICATE_S: Schema := [Opt(1, Num(Uint32)), Opt(2, Num(Uint64)), Opt(3, Bytes)]

  const SUBSCRIBE_S: Schema := [
    Opt(1, Num(Uint32)), Opt(2, Num(Uint64)), Opt(3, Num(Uint32)), Rep(4, Bytes)]

  function AuthenticateFields(id: uint32, date: uint64, jwt: seq<byte>): (m: Message)
    ensures Typed(AUTHENTICATE_S, m)
  {
    [[N(id)], [N(date)], [B(jwt)]]
  }

  // Subscribes to the default channel: protocol 1, no channel ids.
  function SubscribeFields(id: uint32, date: uint64): (m: Message)
    ensures Typed(SUBSCRIBE_S, m)
  {
    [[N(id)], [N(date)], [N(1)], []]
  }

  function AuthenticateFrame(id: uint32, io: Io, jwt: seq<byte>): seq<byte> {
    Envelope(AUTHENTICATE, EncodeMsg(AUTHENTICATE_S, AuthenticateFields(id, io.msgDate, jwt)))
  }

  function SubscribeFrame(id: uint32, io: Io): seq<byte> {
    Envelope(SUBSCRIBE, EncodeMsg(SUBSCRIBE_S, SubscribeFields(id, io.msgDate)))
  }

  // What the device says about itself when it joins; the texts are UTF-8 bytes.
  datatype Identity = Identity(
    deviceUuid: Uuid, friendlyName: seq<byte>, brand: seq<byte>, model: seq<byte>, version: seq<byte>)

  const SPEAKER := 1
  const MP3 := 1
  const HI_RES_192 := 4

  function JoinMessage(who: Identity): (m: QConnectMessage)
    ensures ValidMessage(m)
  {
    QConnectMessage(Some(JOIN_SESSION), map[JOIN_SESSION := JoinSessionBody(None, Some(DeviceInfo(
      Some(who.deviceUuid), Some(who.friendlyName), Some(who.brand), Some(who.model), None, Some(SPEAKER),
      Some(DeviceCapabilities(Some(MP3), Some(HI_RES_192), Some(2))), Some(who.version))))])
  }

  class Connection {
    const net: Network
    var msgId: uint32
    var frames: seq<seq<byte>>  // everything handed to the socket, failed writes included

    // The socket is open and nothing has been sent.
    constructor (net: Network)
      ensures this.net == net && msgId == 0 && frames == []
    {
      this.net := net;
      msgId := 0;
      frames := [];
    }

    method NextMsgId() returns (id: uint32)
      modifies this`msgId
      ensures msgId == NextId(old(msgId)) && id == msgId
    {
      msgId := AsUint32(msgId + 1);
      id := msgId;
    }

    method SendEnvelope(msgType: int32, data: seq<byte>) returns (ok: bool)
      modifies this`frames
      ensures frames == old(frames) + [Envelope(msgType, data)]
      ensures ok == net(|old(frames)|).ok
    {
      ok := net(|frames|).ok;
      var buf := EncodeEnvelope(msgType, data);
      frames := frames + [buf];
    }

    method Authenticate(jwt: seq<byte>) returns (ok: bool)
      modifies this
      ensures msgId == NextId(old(msgId))
      ensures frames == old(frames) + [AuthenticateFrame(msgId, net(|old(frames)|), jwt)]
      ensures ok == net(|old(frames)|).ok
    {
      var id := NextMsgId();
      ok := SendEnvelope(AUTHENTICATE, EncodeMsg(AUTHENTICATE_S, AuthenticateFields(id, net(|frames|).msgDate, jwt)));
    }

    method SubscribeDefault() returns (ok: bool)
      modifies this
      ensures msgId == NextId(old(msgId))
      ensures frames == old(frames) + [SubscribeFrame(msgId, net(|old(frames)|))]
      ensures ok == net(|old(frames)|).ok
    {
      var id := NextMsgId();
      ok := SendEnvelope(SUBSCRIBE, EncodeMsg(SUBSCRIBE_S, SubscribeFields(id, net(|frames|).msgDate)));
    }

    method SendMessage(m: QConnectMessage) returns (ok: bool)
      requires ValidMessage(m)
      modifies this
      ensures msgId == NextId(old(msgId))
      ensures frames == old(frames) + [FrameOf(old(msgId), m, net(|old(frames)|))]
      ensures ok == net(|old(frames)|).ok
    {
      var io := net(|frames|);
      var batch := QConnectBatch(Some(io.messagesTime), Some(AsInt32(msgId)), [m]);
      var id := NextMsgId();
      var payload := Payload(Some(id), Some(io.msgDate), Some(1), None, [], Some(Codec.EncodeBatch(batch)));
      ok := SendEnvelope(PAYLOAD, Codec.EncodePayload(payload));
    }

    // The set-up steps of a session, stopping at the first write that fails.
    method SetUp(jwt: seq<byte>, who: Identity) returns (ok: bool)
      requires msgId == 0 && frames == []
      modifies this
      ensures frames <= SetUpFrames(jwt, who, net)
      ensures ok <==> frames == SetUpFrames(jwt, who, net) && net(0).ok && net(1).ok && net(2).ok
      ensures !ok ==> frames != [] && !net(|frames| - 1).ok
      ensures msgId == |frames|
    {
      hide FrameOf, AuthenticateFrame, SubscribeFrame, JoinMessage, ValidMessage;
      ok := Authenticate(jwt);
      if ok {
        ok := SubscribeDefault();
        if ok {
          ok := SendMessage(JoinMessage(who));
        }
      }
    }

    // The writer goes on numbering where the connection stopped.
    method Split(after: Network) returns (writer: ConnectionWriter)
      ensures fresh(writer) && writer.Valid() && writer.net == after
      ensures writer.startId == msgId && writer.sent == []
    {
      writer := new ConnectionWriter(after, msgId);
    }
  }

  function SetUpFrames(jwt: seq<byte>, who: Identity, net: Network): seq<seq<byte>> {
    [AuthenticateFrame(1, net(0), jwt), SubscribeFrame(2, net(1)), FrameOf(2, JoinMessage(who), net(2))]
  }

  // ---- Numbering --------------------------------------------------------------------

  // The message id a frame carries: field 1 of whichever struct its type byte names.
  function FrameId(frame: seq<byte>): Option<uint32> {
    match SplitEnvelope(frame)
    case None => None
    case Some(Framed(msgType, data)) =>
      var schema := if msgType == AUTHENTICATE then AUTHENTICATE_S
                    else if msgType == SUBSCRIBE then SUBSCRIBE_S else PAYLOAD_S;
      match DecodeMsg(schema, data)
      case None => None
      case Some(m) => GetUint32(Slot(m, 0))
  }

  lemma AuthenticateFrameId(id: uint32, io: Io, jwt: seq<byte>)
    requires TransportTheorems.Fits(AuthenticateFrame(id, io, jwt))
    ensures FrameId(AuthenticateFrame(id, io, jwt)) == Some(id)
  {
    hide WellFormedAfter, EncodeMsg, DecodeMsg;
    var m := AuthenticateFields(id, io.msgDate, jwt);
    var data := EncodeMsg(AUTHENTICATE_S, m);
    WireTheorems.WellFormedFromIndexed(AUTHENTICATE_S, 0);
    TransportTheorems.EnvelopeRoundTrip(AUTHENTICATE, data, []);
    assert AuthenticateFrame(id, io, jwt) + [] == AuthenticateFrame(id, io, jwt);
    WireTheorems.MessageRoundTrip(AUTHENTICATE_S, m);
  }

  lemma SubscribeFrameId(id: uint32, io: Io)
    requires TransportTheorems.Fits(SubscribeFrame(id, io))
    ensures FrameId(SubscribeFrame(id, io)) == Some(id)
  {
    hide WellFormedAfter, EncodeMsg, DecodeMsg;
    var m := SubscribeFields(id, io.msgDate);
    var data := EncodeMsg(SUBSCRIBE_S, m);
    WireTheorems.WellFormedFromIndexed(SUBSCRIBE_S, 0);
    TransportTheorems.EnvelopeRoundTrip(SUBSCRIBE, data, []);
    assert SubscribeFrame(id, io) + [] == SubscribeFrame(id, io);
    WireTheorems.MessageRoundTrip(SUBSCRIBE_S, m);
  }

  lemma PayloadFrameId(id: uint32, m: QConnectMessage, io: Io)
    requires ValidMessage(m) && TransportTheorems.Fits(FrameOf(id, m, io))
    ensures FrameId(FrameOf(id, m, io)) == Some(NextId(id))
  {
    hide WellFormedAfter, EncodeMsg, DecodeMsg, ParseEnvelope, ValidMessage;
    var frame := FrameOf(id, m, io);
    TransportTheorems.PayloadOfFrame(id, m, io);
    TransportTheorems.EnvelopeRoundTrip(PAYLOAD, Codec.EncodePayload(PayloadOf(id, m, io)), []);
    assert frame + [] == frame;
  }

  // Over a whole session, from the first frame on, the n-th frame handed to the socket
  // carries message id n: no gap and no repeat, whichever writes fail.
  lemma SessionFrameIds(
      jwt: seq<byte>, who: Identity, net: Network, after: Network, ms: seq<QConnectMessage>, n: nat)
    requires Codec.AllValid(ms)
    requires 3 + |ms| < TWO_31 && 1 <= n <= 3 + |ms|
    requires TransportTheorems.Fits((SetUpFrames(jwt, who, net) + FramesOf(3, ms, after, 0))[n - 1])
    ensures FrameId((SetUpFrames(jwt, who, net) + FramesOf(3, ms, after, 0))[n - 1]) == Some(n)
  {
    hide FrameId, FrameOf, ValidMessage, AuthenticateFrame, SubscribeFrame, TransportTheorems.Fits, FramesOf;
    if n == 1 {
      AuthenticateFrameId(1, net(0), jwt);
    } else if n == 2 {
      SubscribeFrameId(2, net(1));
    } else if n == 3 {
      PayloadFrameId(2, JoinMessage(who), net(2));
    } else {
      FrameAt(3, ms, after, 0, n - 4);
      PayloadFrameId(n - 1, ms[n - 4], after(n - 4));
    }
  }

  lemma {:induction false} FrameAt(id: uint32, ms: seq<QConnectMessage>, net: Network, from: nat, k: nat)
    requires Codec.AllValid(ms)
    requires k < |ms| && id + |ms| < TWO_31
    ensures FramesOf(id, ms, net, from)[k] == FrameOf(id + k, ms[k], net(from + k))
    decreases k
  {
    hide ValidMessage, FrameOf;
    if k > 0 {
      FrameAt(NextId(id), ms[1..], net, from + 1, k - 1);
    }
  }
}
