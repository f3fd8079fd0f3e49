// Encoding and decoding of the message structs, prost's `encode_to_vec` and `decode`.
module Codec {
  import opened Basics
  import opened Wire
  import WireTheorems
  import opened Messages
  import MessagesTheorems

  ghost predicate AllValid(ms: seq<QConnectMessage>) {
    forall i :: 0 <= i < |ms| ==> ValidMessage(ms[i])
  }

  ghost predicate ValidBatch(b: QConnectBatch) {
    AllValid(b.messages)
  }

  function EncodePayload(p: Payload): seq<byte> {
    MessagesTheorems.PayloadTyped(p);
    EncodeMsg(PAYLOAD_S, PayloadFields(p))
  }

  function DecodePayload(s: seq<byte>): Option<Payload> {
    match DecodeMsg(PAYLOAD_S, s)
    case None => None
    case Some(m) => Some(ToPayload(m))
  }

  function EncodeBatch(b: QConnectBatch): seq<byte>
    requires ValidBatch(b)
  {
    MessagesTheorems.BatchTyped(b);
    EncodeMsg(BatchSchema(), BatchFields(b))
  }

  function DecodeBatch(s: seq<byte>): Option<QConnectBatch> {
    match DecodeMsg(BatchSchema(), s)
    case None => None
    case Some(m) =>
      TypedBatchShape(m);
      Some(QConnectBatch(GetUint64(m[0]), GetInt32(m[1]), ToMessages(m[2])))
  }

  lemma TypedBatchShape(m: Message)
    requires Typed(BatchSchema(), m)
    ensures |m| == 3
    ensures forall i :: 0 <= i < |m[2]| ==> m[2][i].M? && |m[2][i].msg| == |BodyTags()| + 1
  {
    hide TagsBelow, BodySchema;
    var f := BatchSchema()[2];
    assert TypedField(f, m[2]);
    forall i | 0 <= i < |m[2]| ensures m[2][i].M? && |m[2][i].msg| == |BodyTags()| + 1 {
      assert TypedOne(f, m[2][i]);
      assert TypedVal(Msg(MessageSchema()), m[2][i]);
    }
  }

  // ---- Round trips ------------------------------------------------------------

  // Decoding an encoded payload returns it, with or without fields this version
  // does not know after it.
  lemma PayloadRoundTrip(p: Payload, extra: seq<byte>)
    requires |EncodePayload(p)| < TWO_64 && WireTheorems.UnknownOnly(PAYLOAD_S, extra)
    ensures DecodePayload(EncodePayload(p) + extra) == Some(p)
  {
    hide PayloadFields, ToPayload, WellFormedAfter, EncodeMsg, DecodeMsg, WireTheorems.UnknownOnly, Typed;
    MessagesTheorems.LeafSchemas();
    MessagesTheorems.PayloadTyped(p);
    MessagesTheorems.PayloadInverse(p);
    WireTheorems.UnknownFieldsHarmless(PAYLOAD_S, PayloadFields(p), extra);
  }

  lemma BatchRoundTrip(b: QConnectBatch, extra: seq<byte>)
    requires ValidBatch(b) && |EncodeBatch(b)| < TWO_64
    requires WireTheorems.UnknownOnly(BatchSchema(), extra)
    ensures DecodeBatch(EncodeBatch(b) + extra) == Some(b)
  {
    hide BatchSchema, ToMessages, WellFormedAfter, EncodeMsg, DecodeMsg, WireTheorems.UnknownOnly, Typed, MessageFields,
      ValidMessage, TagsBelow, BodySchema;
    MessagesTheorems.BatchSchemaWellFormed();
    MessagesTheorems.BatchTyped(b);
    WireTheorems.UnknownFieldsHarmless(BatchSchema(), BatchFields(b), extra);
    MessagesTheorems.MessagesInverse(b);
  }

  function EncodeRendererState(s: QueueRendererState): seq<byte> {
    MessagesTheorems.QueueRendererStateTyped(s);
    assert TypedVal(Msg(QUEUE_RENDERER_STATE_S), M(QueueRendererStateFields(s)));
    EncodeMsg(QUEUE_RENDERER_STATE_S, QueueRendererStateFields(s))
  }

  function DecodeRendererState(s: seq<byte>): Option<QueueRendererState> {
    match DecodeMsg(QUEUE_RENDERER_STATE_S, s)
    case None => None
    case Some(m) => Some(ToQueueRendererState(m))
  }

  lemma RendererStateRoundTrip(s: QueueRendererState, extra: seq<byte>)
    requires |EncodeRendererState(s)| < TWO_64 && WireTheorems.UnknownOnly(QUEUE_RENDERER_STATE_S, extra)
    ensures DecodeRendererState(EncodeRendererState(s) + extra) == Some(s)
  {
    hide QueueRendererStateFields, ToQueueRendererState, WellFormedAfter, EncodeMsg, DecodeMsg,
      WireTheorems.UnknownOnly;
    MessagesTheorems.StateSchemas();
    MessagesTheorems.QueueRendererStateTyped(s);
    assert TypedVal(Msg(QUEUE_RENDERER_STATE_S), M(QueueRendererStateFields(s)));
    MessagesTheorems.QueueRendererStateInverse(s);
    WireTheorems.UnknownFieldsHarmless(QUEUE_RENDERER_STATE_S, QueueRendererStateFields(s), extra);
  }

  // ---- Sizes --------------------------------------------------------------------

  lemma {:induction false} FieldWithin(fs: Schema, m: Message, k: nat)
    requires Typed(fs, m) && k < |fs| && TypedField(fs[k], m[k])
    ensures |EncodeRecords(fs[k], m[k])| <= |EncodeMsg(fs, m)|
  {
    if k > 0 {
      FieldWithin(fs[1..], m[1..], k - 1);
    }
  }

  // The bytes inside a payload are no longer than the payload.
  lemma InnerWithin(p: Payload)
    requires p.payload.Some?
    ensures |p.payload.value| <= |EncodePayload(p)|
  {
    var m := PayloadFields(p);
    MessagesTheorems.PayloadTyped(p);
    FieldWithin(PAYLOAD_S, m, 5);
    var f := PAYLOAD_S[5];
    assert m[5] == [B(p.payload.value)];
    assert EncodeRecords(f, m[5]) == EncodeRecord(f, m[5][0]) + EncodeRecords(f, []);
    assert EncodeVal(Bytes, m[5][0]) == Delimited(p.payload.value);
  }
}
