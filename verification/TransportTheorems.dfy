// Framing, the end-to-end round trip and the numbering of frames.
module TransportTheorems {
  import opened Basics
  import Varint
  import Wire
  import WireTheorems
  import Messages
  import opened Codec
  import opened Transport

  // ---- Envelope -----------------------------------------------------------------------

  // Whatever follows a frame, its type byte and data come back.
  lemma EnvelopeRoundTrip(msgType: int32, data: seq<byte>, rest: seq<byte>)
    requires 0 <= msgType < 256 && |data| < TWO_64
    ensures SplitEnvelope(Envelope(msgType, data) + rest) == Some(Framed(msgType, data))
  {
    var buf := Envelope(msgType, data) + rest;
    var n := |Varint.Encode(|data|)|;
    assert buf[1..] == Varint.Encode(|data|) + (data + rest);
    Varint.RoundTrip(|data|, data + rest);
    assert buf[1 + n..1 + n + |data|] == data;
  }

  // A frame cut short anywhere is not read at all.
  lemma EnvelopePrefixRefused(msgType: int32, data: seq<byte>, k: nat)
    requires |data| < TWO_64 && k < |Envelope(msgType, data)|
    ensures SplitEnvelope(Envelope(msgType, data)[..k]) == None
  {
    var len := Varint.Encode(|data|);
    var buf := Envelope(msgType, data)[..k];
    assert Envelope(msgType, data) == [msgType % 256] + (len + data);
    if k > 0 {
      assert buf[1..] == (len + data)[..k - 1];
      if k - 1 < |len| {
        assert buf[1..] == len[..k - 1];
        Varint.PrefixRefused(|data|, k - 1, 0);
      } else {
        assert buf[1..] == len + data[..k - 1 - |len|];
        Varint.RoundTrip(|data|, data[..k - 1 - |len|]);
      }
    }
  }

  // The reserved capacity of 1 + 10 + data bytes always suffices.
  lemma EnvelopeCapacity(msgType: int32, data: seq<byte>)
    requires |data| < TWO_64
    ensures |Envelope(msgType, data)| <= 1 + 10 + |data|
  {
    Varint.RoundTrip(|data|, []);
  }

  // ---- End to end --------------------------------------------------------------------------

  // A byte vector's length fits the 64-bit length type.
  predicate Fits(frame: seq<byte>) {
    |frame| < TWO_64
  }

  lemma PayloadOfFrame(id: uint32, m: Messages.QConnectMessage, io: Io)
    requires Messages.ValidMessage(m) && Fits(FrameOf(id, m, io))
    ensures SplitEnvelope(FrameOf(id, m, io)).Some?
    ensures DecodePayload(SplitEnvelope(FrameOf(id, m, io)).value.data) == Some(PayloadOf(id, m, io))
    ensures ParseEnvelope(FrameOf(id, m, io)) == Some(BatchOf(id, m, io))
  {
    hide EncodePayload, DecodePayload, EncodeBatch, DecodeBatch, Messages.ValidMessage, WireTheorems.UnknownOnly,
      Messages.BatchSchema;
    var p := PayloadOf(id, m, io);
    var data := EncodePayload(p);
    var batch := BatchOf(id, m, io);
    assert FrameOf(id, m, io) + [] == FrameOf(id, m, io);
    assert |data| <= |FrameOf(id, m, io)|;
    EnvelopeRoundTrip(PAYLOAD, data, []);
    NothingUnknown(Messages.PAYLOAD_S);
    NothingUnknown(Messages.BatchSchema());
    PayloadRoundTrip(p, []);
    assert data + [] == data;
    InnerWithin(p);
    BatchRoundTrip(batch, []);
    assert EncodeBatch(batch) + [] == EncodeBatch(batch);
  }

  lemma NothingUnknown(fs: Wire.Schema)
    ensures WireTheorems.UnknownOnly(fs, [])
  {
  }

  // Every sequence of messages sent through the writer comes out of a reader fed with
  // the frames, whole and in order.
  lemma {:induction false} EndToEnd(id: uint32, ms: seq<Messages.QConnectMessage>, net: Network, from: nat)
    requires AllValid(ms)
    requires forall i :: 0 <= i < |ms| ==> Fits(FramesOf(id, ms, net, from)[i])
    ensures Stream(Deliver(FramesOf(id, ms, net, from))) == AsItems(ms)
    decreases |ms|
  {
    hide Messages.ValidMessage, ParseEnvelope, FrameOf, Fits, EncodeBatch, EncodePayload;
    if ms != [] {
      var frames := FramesOf(id, ms, net, from);
      var frame := FrameOf(id, ms[0], net(from));
      var others := FramesOf(NextId(id), ms[1..], net, from + 1);
      assert frames[0] == frame && frames[1..] == others;
      PayloadOfFrame(id, ms[0], net(from));
      var items := Deliver(frames);
      assert items[1..] == Deliver(others);
      forall i | 0 <= i < |ms[1..]| ensures Fits(others[i]) {
        assert others[i] == frames[i + 1];
      }
      EndToEnd(NextId(id), ms[1..], net, from + 1);
      assert AsItems(ms) == AsItems([ms[0]]) + AsItems(ms[1..]);
    }
  }

  // ---- What a reader yields -------------------------------------------------------------

  predicate Ends(item: WsItem) {
    item.Failed? || item.msg.Close?
  }

  function Concat(batches: seq<seq<Messages.QConnectMessage>>): seq<Messages.QConnectMessage> {
    if batches == [] then [] else batches[0] + Concat(batches[1..])
  }

  // A binary message that is a frame gives its batch, anything else nothing.
  function Batches(items: seq<WsItem>): seq<seq<Messages.QConnectMessage>> {
    seq(|items|, i requires 0 <= i < |items| =>
      match items[i]
      case Received(Binary(data)) =>
        (match ParseEnvelope(data) case None => [] case Some(batch) => batch.messages)
      case _ => [])
  }

  // For any frames: the messages of all batches before the first Close or error, in
  // order, then the error if that is what came.
  lemma {:induction false} StreamIsBatchesBeforeEnd(items: seq<WsItem>, cut: nat)
    requires cut <= |items| && (cut < |items| ==> Ends(items[cut]))
    requires forall i :: 0 <= i < cut ==> !Ends(items[i])
    ensures Stream(items) == AsItems(Concat(Batches(items[..cut])))
      + (if cut < |items| && items[cut].Failed? then [StreamError(items[cut].error)] else [])
    decreases cut
  {
    hide ParseEnvelope, AsItems;
    if cut > 0 {
      StreamIsBatchesBeforeEnd(items[1..], cut - 1);
      assert items[1..][..cut - 1] == items[..cut][1..];
      var bs := Batches(items[..cut]);
      assert bs[1..] == Batches(items[1..][..cut - 1]);
      ItemsOfBoth(bs[0], Concat(bs[1..]));
    } else {
      ItemsOfBoth([], []);
    }
  }

  lemma ItemsOfBoth(a: seq<Messages.QConnectMessage>, b: seq<Messages.QConnectMessage>)
    ensures AsItems([]) == [] && AsItems(a + b) == AsItems(a) + AsItems(b)
  {
  }

  // ---- Message ids ------------------------------------------------------------------------

  // Frames carry consecutive message ids, and a batch is numbered one below its payload.
  lemma {:induction false} ConsecutiveIds(
      id: uint32, ms: seq<Messages.QConnectMessage>, net: Network, from: nat, k: nat)
    requires AllValid(ms)
    requires k < |ms| && id + |ms| < TWO_31
    requires Fits(FramesOf(id, ms, net, from)[k])
    ensures var frame := FramesOf(id, ms, net, from)[k];
      && SplitEnvelope(frame).Some?
      && DecodePayload(SplitEnvelope(frame).value.data).Some?
      && DecodePayload(SplitEnvelope(frame).value.data).value.msgId == Some(id + k + 1)
      && ParseEnvelope(frame).Some?
      && ParseEnvelope(frame).value.messagesId == Some(id + k)
      && ParseEnvelope(frame).value.messages == [ms[k]]
    decreases k
  {
    hide Messages.ValidMessage, ParseEnvelope, FrameOf, Fits, SplitEnvelope, DecodePayload, EncodeBatch;
    if k == 0 {
      PayloadOfFrame(id, ms[0], net(from));
    } else {
      ConsecutiveIds(NextId(id), ms[1..], net, from + 1, k - 1);
    }
  }
}
