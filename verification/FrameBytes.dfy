// Whole frames byte by byte: what the writer hands to the socket, exactly which frames
// the reader takes, and what the three frames of a set-up say.
module FrameBytes {
  import opened Basics
  import Varint
  import opened Wire
  import opened WireTheorems
  import opened WireBytes
  import opened WrittenBytes
  import opened Layouts
  import opened Messages
  import opened MessagesTheorems
  import Codec
  import Transport
  import TransportTheorems
  import Setup

  // ---- Messages -----------------------------------------------------------------------

  // The tags of the message fields a message may have, besides its type under tag 1.
  const TAGS: seq<nat> := Range(2, 5) + Range(21, 24) + Range(25, 31) + Range(41, 48) + Range(61, 106)

  function Range(first: nat, end: nat): (tags: seq<nat>)
    requires first <= end
  {
    seq(end - first, i requires 0 <= i => first + i)
  }

  lemma RangeHolds(first: nat, end: nat, t: nat)
    requires first <= end
    ensures t in Range(first, end) <==> first <= t < end
  {
    if first <= t < end {
      assert Range(first, end)[t - first] == t;
    }
  }

  lemma TagsExactly()
    ensures BodyTags() == TAGS
  {
    hide BodySchema, TagsBelow;
    BodyTagsOrdered();
    forall t: nat ensures t in BodyTags() <==> t in TAGS {
      KnownTag(t);
    }
    SameTags(BodyTags(), TAGS);
  }

  lemma KnownTag(t: nat)
    ensures BodySchema(t).Some? <==> t in TAGS
    ensures t in TAGS ==> t < 106
  {
    hide Range;
    RangeHolds(2, 5, t);
    RangeHolds(21, 24, t);
    RangeHolds(25, 31, t);
    RangeHolds(41, 48, t);
    RangeHolds(61, 106, t);
  }

  predicate Increasing(a: seq<nat>) {
    forall i, j :: 0 <= i < j < |a| ==> a[i] < a[j]
  }

  lemma {:induction false} SameTags(a: seq<nat>, b: seq<nat>)
    requires Increasing(a) && Increasing(b)
    requires forall t: nat :: t in a <==> t in b
    ensures a == b
  {
    if a == [] {
      if b != [] {
        HasMember(b);
      }
    } else {
      assert a[0] in b && b[0] in a;
      assert a[0] == b[0];
      forall t: nat ensures t in a[1..] <==> t in b[1..] {
        assert t in a[1..] <==> t in a && t > a[0];
        assert t in b[1..] <==> t in b && t > b[0];
      }
      SameTags(a[1..], b[1..]);
      assert a == [a[0]] + a[1..] && b == [b[0]] + b[1..];
    }
  }

  lemma HasMember(b: seq<nat>)
    requires b != []
    ensures exists t: nat :: t in b
  {
    assert b[0] in b;
  }

  function MessageLayout(m: QConnectMessage): seq<Line> {
    Flat([Whole(1, m.messageType)] + seq(|TAGS|, i requires 0 <= i < |TAGS| =>
      if TAGS[i] in m.bodies then [Line(TAGS[i], Nested(BodyLayout(TAGS[i], m.bodies[TAGS[i]])))] else []))
  }

  lemma MessageLaid(m: QConnectMessage)
    requires ValidMessage(m)
    ensures Lines(MessageSchema(), MessageFields(m)) == MessageLayout(m)
  {
    hide Lines, FieldLines, Whole, Ints, BodyLayout, BodySchema, BodyValues, BodyFits, TagsBelow;
    TagsExactly();
    var fs, vs := MessageSchema(), MessageFields(m);
    var parts := [Whole(1, m.messageType)] + seq(|TAGS|, i requires 0 <= i < |TAGS| =>
      if TAGS[i] in m.bodies then [Line(TAGS[i], Nested(BodyLayout(TAGS[i], m.bodies[TAGS[i]])))] else []);
    forall i | 0 <= i < |fs| ensures FieldLines(fs[i], vs[i]) == parts[i] {
      if i == 0 {
        WholeLaid(1, Int32, m.messageType);
      } else {
        FieldLaid(m, TAGS[i - 1]);
      }
    }
    LinesAre(fs, vs, parts);
  }

  lemma FieldLaid(m: QConnectMessage, tag: nat)
    requires ValidMessage(m) && BodySchema(tag).Some?
    ensures FieldLines(Opt(tag, Msg(BodySchema(tag).value)),
                       if tag in m.bodies then [M(BodyValues(m.bodies[tag]))] else [])
         == if tag in m.bodies then [Line(tag, Nested(BodyLayout(tag, m.bodies[tag])))] else []
  {
    hide Lines, FieldLines, BodyLayout, BodySchema, BodyValues, BodyFits;
    if tag in m.bodies {
      BodyLaid(tag, m.bodies[tag]);
      InnerLaid(tag, BodySchema(tag).value, Some(BodyValues(m.bodies[tag])));
    } else {
      InnerLaid(tag, BodySchema(tag).value, None);
    }
  }

  // ---- Frames sent ----------------------------------------------------------------------

  // A type byte, the length of `data` as a varint, and `data`.
  predicate IsFrame(frame: seq<byte>, msgType: byte, data: seq<byte>) {
    |frame| > 0 && frame[0] == msgType && IsPrefixed(frame[1..], data)
  }

  lemma EnvelopeBytes(msgType: byte, data: seq<byte>)
    ensures IsFrame(Transport.Envelope(msgType, data), msgType, data)
  {
    hide IsPrefixed;
    var frame := Transport.Envelope(msgType, data);
    assert frame[1..] == Delimited(data);
    DelimitedWritten(data);
  }

  function BatchLayout(b: QConnectBatch): seq<Line> {
    Flat([Fixed8(1, b.messagesTime), Whole(2, b.messagesId),
          seq(|b.messages|, i requires 0 <= i < |b.messages| => Line(3, Nested(MessageLayout(b.messages[i]))))])
  }

  lemma BatchWritten(b: QConnectBatch)
    requires Codec.ValidBatch(b)
    ensures IsLines(BatchLayout(b), Codec.EncodeBatch(b))
  {
    hide Lines, Whole, Fixed8, Ints, MessageLayout, MessageSchema, MessageFields, ValidMessage, IsLines;
    BatchTyped(b);
    MessageWritten(BatchSchema(), BatchFields(b));
    Fixed8Laid(1, b.messagesTime);
    WholeLaid(2, Int32, b.messagesId);
    var f := Rep(3, Msg(MessageSchema()));
    var third := seq(|b.messages|, i requires 0 <= i < |b.messages| => Line(3, Nested(MessageLayout(b.messages[i]))));
    forall i | 0 <= i < |b.messages| ensures LineOf(f, BatchFields(b)[2][i]) == third[i] {
      MessageLaid(b.messages[i]);
    }
    assert FieldLines(f, BatchFields(b)[2]) == third;
    LinesAre(BatchSchema(), BatchFields(b), [Fixed8(1, b.messagesTime), Whole(2, b.messagesId), third]);
  }

  function TextsLayout(tag: nat, texts: seq<seq<byte>>): seq<Line> {
    seq(|texts|, i requires 0 <= i < |texts| => Line(tag, Text(texts[i])))
  }

  function PayloadLayout(p: Payload): seq<Line> {
    Flat([Whole(1, p.msgId), Whole(2, p.msgDate), Whole(3, p.proto), Raw(4, p.src), TextsLayout(5, p.dests),
          Raw(7, p.payload)])
  }

  lemma {:induction false} TextsLaid(tag: nat, texts: seq<seq<byte>>, vs: seq<Val>)
    requires |vs| == |texts| && forall i :: 0 <= i < |vs| ==> vs[i] == B(texts[i])
    ensures FieldLines(Rep(tag, Bytes), vs) == TextsLayout(tag, texts)
  {
    var f := Rep(tag, Bytes);
    forall i | 0 <= i < |vs| ensures FieldLines(f, vs)[i] == TextsLayout(tag, texts)[i] {
      assert LineOf(f, B(texts[i])) == Line(tag, Text(texts[i]));
    }
  }

  lemma PayloadWritten(p: Payload)
    ensures IsLines(PayloadLayout(p), Codec.EncodePayload(p))
  {
    hide Lines, FieldLines, Whole, Raw, TextsLayout, Ints, Strs, IsLines, Flat, EncodeMsg;
    PayloadTyped(p);
    MessageWritten(PAYLOAD_S, PayloadFields(p));
    WholeLaid(1, Uint32, p.msgId);
    WholeLaid(2, Uint64, p.msgDate);
    WholeLaid(3, Uint32, p.proto);
    RawLaid(4, p.src);
    TextsLaid(5, p.dests, PayloadFields(p)[4]);
    RawLaid(7, p.payload);
    LinesAre(PAYLOAD_S, PayloadFields(p),
      [Whole(1, p.msgId), Whole(2, p.msgDate), Whole(3, p.proto), Raw(4, p.src), TextsLayout(5, p.dests),
       Raw(7, p.payload)]);
  }

  lemma Flat3(a: seq<Line>, b: seq<Line>, c: seq<Line>)
    ensures Flat([a, b, c]) == a + b + c
  {
    assert [a, b, c][1..] == [b, c] && [b, c][1..] == [c] && [c][1..] == [];
    assert Flat([c]) == c;
  }

  lemma Flat4(a: seq<Line>, b: seq<Line>, c: seq<Line>, d: seq<Line>)
    ensures Flat([a, b, c, d]) == a + b + c + d
  {
    assert [a, b, c, d][1..] == [b, c, d];
    Flat3(b, c, d);
  }

  lemma Flat6(a: seq<Line>, b: seq<Line>, c: seq<Line>, d: seq<Line>, e: seq<Line>, f: seq<Line>)
    ensures Flat([a, b, c, d, e, f]) == a + b + c + d + e + f
  {
    Flat4(c, d, e, f);
    assert [a, b, c, d, e, f][1..] == [b, c, d, e, f];
    assert [b, c, d, e, f][1..] == [c, d, e, f];
  }

  // The frame of one message, after message id `id`: type byte 6 around the id one higher
  // (field 1), the date (2), protocol 1 (3) and, in field 7, a batch of the time (1, eight
  // bytes), the id before (2) and the message (3).
  ghost predicate IsSent(
      frame: seq<byte>, id: uint32, m: QConnectMessage, io: Transport.Io, data: seq<byte>, batch: seq<byte>)
  {
    && IsFrame(frame, 6, data)
    && IsLines([Line(1, Number((id + 1) % 0x1_0000_0000)), Line(2, Number(io.msgDate)), Line(3, Number(1)),
                Line(7, Text(batch))], data)
    && IsLines([Line(1, Eight(io.messagesTime)),
                Line(2, Number(if id < 0x8000_0000 then id else id + 0xFFFF_FFFF_0000_0000)),
                Line(3, Nested(MessageLayout(m)))], batch)
  }

  lemma FrameWritten(id: uint32, m: QConnectMessage, io: Transport.Io)
    requires ValidMessage(m)
    ensures exists data, batch :: IsSent(Transport.FrameOf(id, m, io), id, m, io, data, batch)
  {
    hide IsFrame, IsLines, ValidMessage, Codec.EncodePayload, Codec.EncodeBatch, MessageLayout, PayloadLayout,
      BatchLayout, Transport.Envelope;
    var p := Transport.PayloadOf(id, m, io);
    var b := Transport.BatchOf(id, m, io);
    EnvelopeBytes(6, Codec.EncodePayload(p));
    PayloadWritten(p);
    BatchWritten(b);
    FrameLines(id, m, io);
    assert IsSent(Transport.FrameOf(id, m, io), id, m, io, Codec.EncodePayload(p), Codec.EncodeBatch(b));
  }

  lemma FrameLines(id: uint32, m: QConnectMessage, io: Transport.Io)
    requires ValidMessage(m)
    ensures PayloadLayout(Transport.PayloadOf(id, m, io))
         == [Line(1, Number((id + 1) % 0x1_0000_0000)), Line(2, Number(io.msgDate)), Line(3, Number(1)),
             Line(7, Text(Codec.EncodeBatch(Transport.BatchOf(id, m, io))))]
    ensures BatchLayout(Transport.BatchOf(id, m, io))
         == [Line(1, Eight(io.messagesTime)),
             Line(2, Number(if id < 0x8000_0000 then id else id + 0xFFFF_FFFF_0000_0000)),
             Line(3, Nested(MessageLayout(m)))]
  {
    hide ValidMessage, Codec.EncodeBatch, MessageLayout, Flat;
    var p, b := Transport.PayloadOf(id, m, io), Transport.BatchOf(id, m, io);
    Flat6(Whole(1, p.msgId), Whole(2, p.msgDate), Whole(3, p.proto), Raw(4, p.src), TextsLayout(5, p.dests),
      Raw(7, p.payload));
    Flat3(Fixed8(1, b.messagesTime), Whole(2, b.messagesId),
      seq(|b.messages|, i requires 0 <= i < |b.messages| => Line(3, Nested(MessageLayout(b.messages[i])))));
  }

  // ---- Frames received ------------------------------------------------------------------

  const PAYLOAD_FIELDS: Schema := [
    Opt(1, Num(Uint32)), Opt(2, Num(Uint64)), Opt(3, Num(Uint32)), Opt(4, Bytes), Rep(5, Bytes), Opt(7, Bytes)]

  function BatchOfFields(): Schema {
    [Opt(1, Num(Fixed64)), Opt(2, Num(Int32)), Rep(3, Msg(MessageSchema()))]
  }

  // Type byte 6, a length and that many bytes `data`, which are a payload whose field 7
  // holds the bytes `inner`, which are the batch `b`. Bytes after `data` do not matter.
  ghost predicate IsReceived(buf: seq<byte>, k: nat, data: seq<byte>, p: Message, inner: seq<byte>, b: Message) {
    && k < |buf| && buf[0] == 6 && IsDelimited(buf[1..][..k], data)
    && IsMessageRead(PAYLOAD_FIELDS, data, Empty(PAYLOAD_FIELDS), p) && |p| == 6 && p[5] == [B(inner)]
    && IsMessageRead(BatchOfFields(), inner, Empty(BatchOfFields()), b)
  }

  // Time, id and messages are the values of fields 1, 2 and 3.
  ghost predicate IsBatch(b: Message, batch: QConnectBatch) {
    && |b| == 3
    && b[0] == (if batch.messagesTime.Some? then [N(batch.messagesTime.value)] else [])
    && b[1] == (if batch.messagesId.Some? then [N(batch.messagesId.value)] else [])
    && |b[2]| == |batch.messages|
    && forall i :: 0 <= i < |b[2]| ==>
      b[2][i].M? && |b[2][i].msg| == |BodyTags()| + 1 && batch.messages[i] == ToMessage(b[2][i].msg)
  }

  // A frame is taken exactly when it has the form above, and as that batch.
  lemma ReceivedExactly(buf: seq<byte>, batch: QConnectBatch)
    ensures Transport.ParseEnvelope(buf) == Some(batch)
       <==> exists k: nat, data, p, inner, b :: IsReceived(buf, k, data, p, inner, b) && IsBatch(b, batch)
  {
    hide Transport.ParseEnvelope, IsReceived, IsBatch;
    if Transport.ParseEnvelope(buf) == Some(batch) {
      ReceivedParts(buf, batch);
    }
    forall k: nat, data, p, inner, b | IsReceived(buf, k, data, p, inner, b) && IsBatch(b, batch)
      ensures Transport.ParseEnvelope(buf) == Some(batch) {
      ReceivedIsParsed(buf, batch, k, data, p, inner, b);
    }
  }

  lemma HeaderExactly(buf: seq<byte>, k: nat, data: seq<byte>)
    requires buf != []
    ensures k < |buf| && IsDelimited(buf[1..][..k], data) ==>
      Transport.SplitEnvelope(buf) == Some(Transport.Framed(buf[0], data))
    ensures Transport.SplitEnvelope(buf) == Some(Transport.Framed(buf[0], data)) ==>
      exists j: nat :: j < |buf| && IsDelimited(buf[1..][..j], data)
  {
    hide IsDelimited, Varint.Decode;
    var s := buf[1..];
    DelimitedExactly(s, data, k);
    if DecodeDelimited(s).Some? {
      var Read(content, j) := DecodeDelimited(s).value;
      DelimitedExactly(s, content, j);
    }
    HeaderIsDelimited(buf);
  }

  // The header is read as the length of a delimited record is.
  lemma HeaderIsDelimited(buf: seq<byte>)
    requires buf != []
    ensures Transport.SplitEnvelope(buf) ==
      match DecodeDelimited(buf[1..]) case None => None case Some(r) => Some(Transport.Framed(buf[0], r.value))
  {
    hide Varint.Decode;
    if Varint.Decode(buf[1..]).Some? {
      var Read(len, n) := Varint.Decode(buf[1..]).value;
      if len <= |buf| - 1 - n {
        assert buf[1..][n..n + len] == buf[1 + n..1 + n + len];
      }
    }
  }

  lemma PayloadReadExactly(data: seq<byte>, p: Message)
    ensures DecodeMsg(PAYLOAD_S, data) == Some(p)
       <==> IsMessageRead(PAYLOAD_FIELDS, data, Empty(PAYLOAD_FIELDS), p)
  {
    hide Merge, IsMessageRead, WellFormedAfter, Default, Empty;
    LeafSchemas();
    EmptyIsDefault(PAYLOAD_S);
    MessageReadExactly(PAYLOAD_S, data, Default(PAYLOAD_S), p);
  }

  lemma BatchReadExactly(inner: seq<byte>, b: Message)
    ensures DecodeMsg(BatchSchema(), inner) == Some(b)
       <==> IsMessageRead(BatchOfFields(), inner, Empty(BatchOfFields()), b)
  {
    hide Merge, IsMessageRead, WellFormedAfter, Default, Empty, MessageSchema;
    BatchSchemaWellFormed();
    EmptyIsDefault(BatchSchema());
    MessageReadExactly(BatchSchema(), inner, Default(BatchSchema()), b);
  }

  // The bytes in field 7 are the payload's.
  lemma InnerBytes(p: Message, inner: seq<byte>)
    requires Typed(PAYLOAD_S, p)
    ensures |p| == 6 && (ToPayload(p).payload == Some(inner) <==> p[5] == [B(inner)])
  {
    assert TypedField(PAYLOAD_S[5], p[5]);
    assert p[5] != [] ==> TypedOne(PAYLOAD_S[5], p[5][0]) && TypedVal(Bytes, p[5][0]) && p[5] == [p[5][0]];
  }

  lemma NumberHeld(k: Scalar, f: Field, vs: seq<Val>)
    requires f.Opt? && f.ty == Num(k) && TypedField(f, vs)
    ensures vs == [] || (|vs| == 1 && vs[0].N? && InRange(k, vs[0].n))
  {
    if vs != [] {
      assert TypedOne(f, vs[0]) && TypedVal(f.ty, vs[0]);
    }
  }

  lemma BatchHeld(b: Message, batch: QConnectBatch)
    requires Typed(BatchSchema(), b)
    ensures |b| == 3 && forall i :: 0 <= i < |b[2]| ==> b[2][i].M? && |b[2][i].msg| == |BodyTags()| + 1
    ensures QConnectBatch(GetUint64(b[0]), GetInt32(b[1]), ToMessages(b[2])) == batch <==> IsBatch(b, batch)
  {
    hide MessageSchema, ToMessage, BodyTags;
    Codec.TypedBatchShape(b);
    var fs := BatchSchema();
    assert TypedField(fs[0], b[0]) && TypedField(fs[1], b[1]);
    NumberHeld(Fixed64, fs[0], b[0]);
    NumberHeld(Int32, fs[1], b[1]);
  }

  lemma ReceivedParts(buf: seq<byte>, batch: QConnectBatch)
    requires Transport.ParseEnvelope(buf) == Some(batch)
    ensures exists k: nat, data, p, inner, b :: IsReceived(buf, k, data, p, inner, b) && IsBatch(b, batch)
  {
    hide Transport.SplitEnvelope, DecodeMsg, ToPayload, ToMessages, IsBatch, IsMessageRead, IsDelimited, Typed,
      BatchSchema, BatchOfFields, BodyTags, MessageSchema, Empty;
    var data := Transport.SplitEnvelope(buf).value.data;
    assert buf != [] by { NoHeader(); }
    HeaderIsDelimited(buf);
    HeaderExactly(buf, 0, data);
    var k: nat :| k < |buf| && IsDelimited(buf[1..][..k], data);
    var p := DecodeMsg(PAYLOAD_S, data).value;
    PayloadReadExactly(data, p);
    var inner := ToPayload(p).payload.value;
    InnerBytes(p, inner);
    var b := DecodeMsg(BatchSchema(), inner).value;
    BatchReadExactly(inner, b);
    BatchHeld(b, batch);
    assert IsReceived(buf, k, data, p, inner, b);
  }

  lemma NoHeader()
    ensures Transport.SplitEnvelope([]) == None
  {
  }

  lemma ReceivedIsParsed(
      buf: seq<byte>, batch: QConnectBatch, k: nat, data: seq<byte>, p: Message, inner: seq<byte>, b: Message)
    requires IsReceived(buf, k, data, p, inner, b) && IsBatch(b, batch)
    ensures Transport.ParseEnvelope(buf) == Some(batch)
  {
    hide Transport.SplitEnvelope, DecodeMsg, ToPayload, ToMessages, IsBatch, IsMessageRead, IsDelimited, Typed,
      BatchSchema, BatchOfFields, BodyTags, MessageSchema, Empty;
    HeaderExactly(buf, k, data);
    PayloadReadExactly(data, p);
    InnerBytes(p, inner);
    BatchReadExactly(inner, b);
    BatchHeld(b, batch);
  }

  // The smallest frame with a message: type byte 6 and six bytes, field 7 (key 0x3A) of
  // four, field 3 (key 0x1A) of two, field 1 (key 8) with a number below 128.
  lemma SmallestFrame(t: byte)
    requires t < 128
    ensures Transport.ParseEnvelope([6, 6, 0x3A, 4, 0x1A, 2, 8, t])
         == Some(QConnectBatch(None, None, [QConnectMessage(Some(t), map[])]))
  {
    hide Transport.ParseEnvelope, IsBatch, BatchOfFields, IsMessageRead, Empty, TypeOnly;
    var inner := [0x1A, 2, 8, t];
    SmallBatch(t);
    OnlyMessage(t);
    SmallFrame(inner, [[], [], [M(TypeOnly(t))]], QConnectBatch(None, None, [QConnectMessage(Some(t), map[])]));
    assert [6, 6, 0x3A, 4] + inner == [6, 6, 0x3A, 4, 0x1A, 2, 8, t];
  }

  lemma OnlyMessage(t: byte)
    requires t < 128
    ensures IsBatch([[], [], [M(TypeOnly(t))]], QConnectBatch(None, None, [QConnectMessage(Some(t), map[])]))
  {
    hide IsMessageRead, TypeOnly, ToMessage, BodyTags, MessageSchema, Empty;
    TypeIsRead(t);
  }

  lemma SmallFrame(inner: seq<byte>, b: Message, batch: QConnectBatch)
    requires |inner| == 4 && IsMessageRead(BatchOfFields(), inner, Empty(BatchOfFields()), b) && IsBatch(b, batch)
    ensures Transport.ParseEnvelope([6, 6, 0x3A, 4] + inner) == Some(batch)
  {
    hide Transport.ParseEnvelope, IsReceived, IsBatch, BatchOfFields, IsMessageRead, Empty;
    SmallPayload(inner, b);
    ReceivedExactly([6, 6, 0x3A, 4] + inner, batch);
  }

  // A message of which only the type is there.
  function TypeOnly(t: byte): Message {
    [[N(t)]] + seq(|BodyTags()|, i requires 0 <= i < |BodyTags()| => [])
  }

  lemma TypeIsRead(t: byte)
    requires t < 128
    ensures IsMessageRead(MessageSchema(), [8, t], Empty(MessageSchema()), TypeOnly(t))
    ensures |TypeOnly(t)| == |BodyTags()| + 1
    ensures ToMessage(TypeOnly(t)) == QConnectMessage(Some(t), map[])
  {
    hide BodySchema, TagsBelow, IsMessageRead, ToBody, ToBodies, BodyTags, IsVarint64, Sum128;
    var fs := MessageSchema();
    MessageSchemaWellFormed();
    OneByteVarint(t);
    ReadIntoField(fs, 0, 0, [t], Empty(fs), [N(t)]);
    assert [8] + [t] == [8, t];
    assert Empty(fs)[0 := [N(t)]] == TypeOnly(t);
    NoBodies(BodyTags(), TypeOnly(t)[1..]);
  }

  lemma {:induction false} NoBodies(tags: seq<nat>, m: Message)
    requires |tags| == |m| && forall i :: 0 <= i < |m| ==> m[i] == []
    ensures ToBodies(tags, m) == map[]
  {
    if tags != [] {
      NoBodies(tags[..|tags| - 1], m[..|m| - 1]);
    }
  }

  lemma SmallBatch(t: byte)
    requires t < 128
    ensures IsMessageRead(BatchOfFields(), [0x1A, 2, 8, t], Empty(BatchOfFields()), [[], [], [M(TypeOnly(t))]])
  {
    hide TypeOnly, IsMessageRead, Empty, BatchOfFields, MessageSchema;
    TypeIsRead(t);
    OneMessageRead([8, t], TypeOnly(t));
    assert [26, 2] + [8, t] == [0x1A, 2, 8, t];
  }

  // A batch of one message whose bytes number less than 128.
  lemma OneMessageRead(content: seq<byte>, m: Message)
    requires |content| < 128 && IsMessageRead(MessageSchema(), content, Empty(MessageSchema()), m)
    ensures IsMessageRead(BatchOfFields(), [26, |content|] + content, Empty(BatchOfFields()), [[], [], [M(m)]])
  {
    hide MessageSchema, IsMessageRead, IsRead, WellFormedAfter;
    var fs := BatchOfFields();
    EmbeddedRead(fs[2], content, m);
    BatchSchemaWellFormed();
    ReadIntoField(fs, 2, 2, [|content|] + content, Empty(fs), [M(m)]);
    assert Empty(fs)[2 := [M(m)]] == [[], [], [M(m)]];
    assert [26] + ([|content|] + content) == [26, |content|] + content;
  }

  lemma EmbeddedRead(f: Field, content: seq<byte>, m: Message)
    requires f.Rep? && f.ty.Msg? && |content| < 128
    requires IsMessageRead(f.ty.schema, content, Empty(f.ty.schema), m)
    ensures IsRead(f, 2, [|content|] + content, [], [M(m)])
  {
    hide IsMessageRead, IsDelimited, IsValue, Empty;
    ShortPrefix(content);
    MessageValue(f, [|content|] + content, [], M(m), Empty(f.ty.schema));
  }

  lemma SmallPayload(inner: seq<byte>, b: Message)
    requires |inner| == 4 && IsMessageRead(BatchOfFields(), inner, Empty(BatchOfFields()), b)
    ensures exists k: nat, data, p :: IsReceived([6, 6, 0x3A, 4] + inner, k, data, p, inner, b)
  {
    hide IsMessageRead, IsDelimited, WellFormedAfter, BatchOfFields;
    var fs := PAYLOAD_FIELDS;
    var buf := [6, 6, 0x3A, 4] + inner;
    var data := [58, 4] + inner;
    LeafSchemas();
    ShortPrefix(inner);
    ReadIntoField(fs, 5, 2, [4] + inner, Empty(fs), [B(inner)]);
    assert [58] + ([4] + inner) == data;
    ShortPrefix(data);
    assert buf[1..][..7] == [6] + data;
    assert IsReceived(buf, 7, data, Empty(fs)[5 := [B(inner)]], inner, b);
  }

  lemma OneByteVarint(n: byte)
    requires n < 128
    ensures IsVarint64([n]) && Sum128([n]) == n
  {
    VarintLast([n], n);
  }

  lemma ShortPrefix(content: seq<byte>)
    requires |content| < 128
    ensures IsDelimited([|content|] + content, content)
  {
    hide IsVarint64, Sum128;
    OneByteVarint(|content|);
    var c := [|content|] + content;
    assert c[..1] == [|content|] && c[1..] == content;
  }

  // One record of field `i`, with a key of one byte.
  lemma ReadIntoField(fs: Schema, i: nat, w: nat, c: seq<byte>, m: Message, vs: seq<Val>)
    requires WellFormed(fs) && |m| == |fs| && i < |fs| && w < 8 && 8 <= fs[i].tag * 8 + w < 128
    requires IsRead(fs[i], w, c, m[i], vs)
    ensures IsMessageRead(fs, [fs[i].tag * 8 + w] + c, m, m[i := vs])
  {
    hide IsVarint64, Sum128, IsRead, IsSkipped, WellFormed;
    var key := fs[i].tag * 8 + w;
    OnlyField(fs, i);
    assert IsRecordRead(fs, key, c, m, m[i := vs]);
    OneByteVarint(key);
    var s := [key] + c;
    assert s[..1] == [key] && s[1..|s|] == c && s[|s|..] == [];
    assert IsMessageRead(fs, s[|s|..], m[i := vs], m[i := vs]);
    assert IsKey(s[..1]);
  }

  // ---- The frames of a set-up ------------------------------------------------------------

  const AUTHENTICATE_FIELDS: Schema := [Opt(1, Num(Uint32)), Opt(2, Num(Uint64)), Opt(3, Bytes)]

  const SUBSCRIBE_FIELDS: Schema := [Opt(1, Num(Uint32)), Opt(2, Num(Uint64)), Opt(3, Num(Uint32)), Rep(4, Bytes)]

  // A frame of this type whose data has the layout `lines` and is read as the values `m`.
  ghost predicate Says(frame: seq<byte>, msgType: byte, lines: seq<Line>, fs: Schema, m: Message) {
    exists data :: IsFrame(frame, msgType, data) && IsLines(lines, data) && IsMessageRead(fs, data, Empty(fs), m)
  }

  // The first frame gives the token, the second subscribes to protocol 1 with no channel,
  // and the third joins the session as this device.
  lemma SetUpSays(jwt: seq<byte>, who: Setup.Identity, net: Transport.Network)
    requires TransportTheorems.Fits(Setup.SetUpFrames(jwt, who, net)[0])
    requires TransportTheorems.Fits(Setup.SetUpFrames(jwt, who, net)[1])
    requires TransportTheorems.Fits(Setup.SetUpFrames(jwt, who, net)[2])
    ensures var frames := Setup.SetUpFrames(jwt, who, net);
      && Says(frames[0], 1, [Line(1, Number(1)), Line(2, Number(net(0).msgDate)), Line(3, Text(jwt))],
              AUTHENTICATE_FIELDS, [[N(1)], [N(net(0).msgDate)], [B(jwt)]])
      && Says(frames[1], 2, [Line(1, Number(2)), Line(2, Number(net(1).msgDate)), Line(3, Number(1))],
              SUBSCRIBE_FIELDS, [[N(2)], [N(net(1).msgDate)], [N(1)], []])
      && Transport.ParseEnvelope(frames[2]) == Some(QConnectBatch(Some(net(2).messagesTime), Some(2), [
           QConnectMessage(Some(61), map[61 := JoinSessionBody(None, Some(DeviceInfo(
             Some(who.deviceUuid), Some(who.friendlyName), Some(who.brand), Some(who.model), None, Some(1),
             Some(DeviceCapabilities(Some(1), Some(4), Some(2))), Some(who.version))))])]))
  {
    hide Says, Transport.FrameOf, Setup.AuthenticateFrame, Setup.SubscribeFrame, Transport.ParseEnvelope, ValidMessage,
      TransportTheorems.Fits;
    AuthenticateSays(1, net(0), jwt);
    SubscribeSays(2, net(1));
    TransportTheorems.PayloadOfFrame(2, Setup.JoinMessage(who), net(2));
  }

  lemma AuthenticateSays(id: uint32, io: Transport.Io, jwt: seq<byte>)
    requires TransportTheorems.Fits(Setup.AuthenticateFrame(id, io, jwt))
    ensures Says(Setup.AuthenticateFrame(id, io, jwt), 1,
                 [Line(1, Number(id)), Line(2, Number(io.msgDate)), Line(3, Text(jwt))],
                 AUTHENTICATE_FIELDS, [[N(id)], [N(io.msgDate)], [B(jwt)]])
  {
    hide Says, EncodeMsg, WellFormedAfter, Lines, FieldLines, Flat;
    var fs := AUTHENTICATE_FIELDS;
    var m := Setup.AuthenticateFields(id, io.msgDate, jwt);
    WellFormedFromIndexed(fs, 0);
    WholeLaid(1, Uint32, Some(id));
    WholeLaid(2, Uint64, Some(io.msgDate));
    RawLaid(3, Some(jwt));
    LinesAre(fs, m, [Whole(1, Some(id)), Whole(2, Some(io.msgDate)), Raw(3, Some(jwt))]);
    Flat3(Whole(1, Some(id)), Whole(2, Some(io.msgDate)), Raw(3, Some(jwt)));
    assert Lines(fs, m) == [Line(1, Number(id)), Line(2, Number(io.msgDate)), Line(3, Text(jwt))];
    EncodedSays(1, fs, m);
  }

  lemma SubscribeSays(id: uint32, io: Transport.Io)
    requires TransportTheorems.Fits(Setup.SubscribeFrame(id, io))
    ensures Says(Setup.SubscribeFrame(id, io), 2,
                 [Line(1, Number(id)), Line(2, Number(io.msgDate)), Line(3, Number(1))],
                 SUBSCRIBE_FIELDS, [[N(id)], [N(io.msgDate)], [N(1)], []])
  {
    hide Says, EncodeMsg, WellFormedAfter, Lines, FieldLines, Flat;
    var fs := SUBSCRIBE_FIELDS;
    var m := Setup.SubscribeFields(id, io.msgDate);
    WellFormedFromIndexed(fs, 0);
    WholeLaid(1, Uint32, Some(id));
    WholeLaid(2, Uint64, Some(io.msgDate));
    WholeLaid(3, Uint32, Some(1));
    OneField(Rep(4, Bytes), B([]));
    LinesAre(fs, m, [Whole(1, Some(id)), Whole(2, Some(io.msgDate)), Whole(3, Some(1)), []]);
    Flat4(Whole(1, Some(id)), Whole(2, Some(io.msgDate)), Whole(3, Some(1)), []);
    assert Lines(fs, m) == [Line(1, Number(id)), Line(2, Number(io.msgDate)), Line(3, Number(1))];
    EncodedSays(2, fs, m);
  }

  // What is encoded under a schema is laid out and read back under it.
  lemma EncodedSays(msgType: byte, fs: Schema, m: Message)
    requires WellFormed(fs) && Typed(fs, m) && |EncodeMsg(fs, m)| < TWO_64
    ensures Says(Transport.Envelope(msgType, EncodeMsg(fs, m)), msgType, Lines(fs, m), fs, m)
  {
    hide EncodeMsg, IsFrame, IsLines, IsMessageRead, WellFormed, Empty, Lines, Default, Merge, Transport.Envelope;
    var data := EncodeMsg(fs, m);
    EnvelopeBytes(msgType, data);
    MessageWritten(fs, m);
    MessageRoundTrip(fs, m);
    EmptyIsDefault(fs);
    MessageReadExactly(fs, data, Default(fs), m);
  }
}
