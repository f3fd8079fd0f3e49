// The layout of every message struct, field by field, with its tags and wire types as
// numbers.
module Layouts {
  import opened Basics
  import opened Wire
  import opened WireTheorems
  import opened WireBytes
  import opened WrittenBytes
  import opened Messages
  import MessagesTheorems

  // ---- Fields -------------------------------------------------------------------------

  // A number that may be absent; a negative one stands in two's complement on 64 bits.
  function Whole(tag: nat, o: Option<int>): seq<Line>
    requires o.Some? ==> o.value >= -0x8000_0000
  {
    match o
    case None => []
    case Some(n) => [Line(tag, Number(if n < 0 then n + 0x1_0000_0000_0000_0000 else n))]
  }

  function Flag(tag: nat, o: Option<bool>): seq<Line> {
    match o case None => [] case Some(b) => [Line(tag, Number(if b then 1 else 0))]
  }

  function Raw(tag: nat, o: Option<seq<byte>>): seq<Line> {
    match o case None => [] case Some(bytes) => [Line(tag, Text(bytes))]
  }

  function Fixed4(tag: nat, o: Option<uint32>): seq<Line> {
    match o case None => [] case Some(n) => [Line(tag, Four(n))]
  }

  function Fixed8(tag: nat, o: Option<uint64>): seq<Line> {
    match o case None => [] case Some(n) => [Line(tag, Eight(n))]
  }

  function Inner(tag: nat, o: Option<seq<Line>>): seq<Line> {
    match o case None => [] case Some(lines) => [Line(tag, Nested(lines))]
  }

  function Map<X, Y>(o: Option<X>, f: X -> Y): Option<Y> {
    match o case None => None case Some(x) => Some(f(x))
  }

  // ---- Structs ------------------------------------------------------------------------

  function VersionLayout(v: QueueVersion): seq<Line> {
    Flat([Whole(1, v.major), Whole(2, v.minor)])
  }

  function PositionLayout(p: Position): seq<Line> {
    Flat([Fixed8(1, p.timestamp), Whole(2, p.value)])
  }

  function CapabilitiesLayout(c: DeviceCapabilities): seq<Line> {
    Flat([Whole(1, c.minAudioQuality), Whole(2, c.maxAudioQuality), Whole(3, c.volumeRemoteControl)])
  }

  function DeviceLayout(d: DeviceInfo): seq<Line> {
    Flat([Raw(1, d.deviceUuid), Raw(2, d.friendlyName), Raw(3, d.brand), Raw(4, d.model), Raw(5, d.serialNumber),
          Whole(6, d.deviceType), Inner(7, Map(d.capabilities, CapabilitiesLayout)), Raw(8, d.softwareVersion)])
  }

  function RendererStateLayout(s: RendererState): seq<Line> {
    Flat([Whole(1, s.playingState), Whole(2, s.bufferState), Inner(3, Map(s.currentPosition, PositionLayout)),
          Whole(4, s.duration), Whole(5, s.currentQueueIndex), Whole(7, s.nextQueueItemId)])
  }

  function StateLayout(s: QueueRendererState): seq<Line> {
    Flat([Whole(1, s.playingState), Whole(2, s.bufferState), Inner(3, Map(s.currentPosition, PositionLayout)),
          Whole(4, s.duration), Inner(5, Map(s.queueVersion, VersionLayout)),
          Whole(6, s.currentQueueItemId), Whole(7, s.nextQueueItemId)])
  }

  function TrackLayout(t: QueueTrackRef): seq<Line> {
    Flat([[Line(1, Number(t.queueItemId))], Fixed4(2, t.trackId), Raw(3, t.contextUuid)])
  }

  function TracksLayout(tag: nat, ts: seq<QueueTrackRef>): seq<Line> {
    seq(|ts|, i requires 0 <= i < |ts| => Line(tag, Nested(TrackLayout(ts[i]))))
  }

  function SetStateLayout(s: SetState): seq<Line> {
    Flat([Whole(1, s.playingState), Whole(2, s.currentPosition), Inner(3, Map(s.queueVersion, VersionLayout)),
          Inner(4, Map(s.currentQueueItem, TrackLayout)), Inner(5, Map(s.nextQueueItem, TrackLayout))])
  }

  function SessionStateLayout(s: SessionState): seq<Line> {
    Flat([Raw(1, s.sessionUuid), Whole(2, s.sessionId), Inner(3, Map(s.queueVersion, VersionLayout)),
          Whole(4, s.trackIndex), Flag(5, s.unknown)])
  }

  function IndexesLayout(tag: nat, xs: seq<uint32>): seq<Line> {
    seq(|xs|, i requires 0 <= i < |xs| => Line(tag, Number(xs[i])))
  }

  function QueueStateLayout(q: QueueState): seq<Line> {
    Flat([Inner(1, Map(q.queueVersion, VersionLayout)), Raw(2, q.actionUuid), TracksLayout(3, q.tracks),
          Flag(4, q.shuffleMode), IndexesLayout(5, q.shuffledTrackIndexes),
          Flag(6, q.autoplayMode), Flag(7, q.autoplayLoading), TracksLayout(8, q.autoplayTracks),
          Raw(100, q.queueHash)])
  }

  // Bodies nobody looks inside are laid out by their schemas.
  function BodyLayout(tag: nat, b: Body): seq<Line> {
    match b
    case StateUpdatedBody(state) => Flat([Inner(1, Map(state, StateLayout))])
    case VolumeChangedBody(volume) => Flat([Whole(1, volume)])
    case FileAudioQualityBody(rate) => Flat([Whole(1, rate)])
    case MaxAudioQualityBody(quality) => Flat([Whole(1, quality)])
    case VolumeMutedBody(muted) => Flat([Flag(1, muted)])
    case SetStateBody(s) => SetStateLayout(s)
    case SetVolumeBody(s) => Flat([Whole(1, s.volume), Whole(2, s.volumeDelta)])
    case SetActiveBody(s) => Flat([Flag(1, s.active)])
    case JoinSessionBody(uuid, info) => Flat([Raw(1, uuid), Inner(2, Map(info, DeviceLayout))])
    case SetActiveRendererBody(id) => Flat([Whole(1, id)])
    case AskForQueueStateBody(version, uuid) => Flat([Inner(1, Map(version, VersionLayout)), Raw(2, uuid)])
    case AskForRendererStateBody(id) => Flat([Whole(1, id)])
    case SessionStateBody(s) => SessionStateLayout(s)
    case RendererStateUpdatedBody(u) =>
      Flat([Whole(1, u.rendererId), Whole(2, u.messageId), Inner(3, Map(u.state, RendererStateLayout))])
    case AddRendererBody(a) => Flat([Whole(1, a.rendererId), Inner(2, Map(a.renderer, DeviceLayout))])
    case RemoveRendererBody(id) => Flat([Whole(1, id)])
    case QueueStateBody(q) => QueueStateLayout(q)
    case LoopModeSetBody(mode) => Flat([Whole(1, mode)])
    case OtherBody(fields) =>
      if OtherBodySchema(tag).Some? then Lines(OtherBodySchema(tag).value, fields) else []
  }

  // ---- Fields are laid out as stated ------------------------------------------------------

  lemma OneField(f: Field, v: Val)
    ensures FieldLines(f, []) == []
    ensures FieldLines(f, [v]) == [LineOf(f, v)]
  {
  }

  lemma WholeLaid(tag: nat, k: Scalar, o: Option<int>)
    requires !k.Fixed32? && !k.Fixed64? && (o.Some? ==> o.value >= -0x8000_0000)
    ensures FieldLines(Opt(tag, Num(k)), Ints(o)) == Whole(tag, o)
  {
    OneField(Opt(tag, Num(k)), N(o.GetOr(0)));
  }

  lemma FlagLaid(tag: nat, o: Option<bool>)
    ensures FieldLines(Opt(tag, Num(Bool)), Bools(o)) == Flag(tag, o)
  {
    OneField(Opt(tag, Num(Bool)), N(if o.GetOr(false) then 1 else 0));
  }

  lemma RawLaid(tag: nat, o: Option<seq<byte>>)
    ensures FieldLines(Opt(tag, Bytes), Strs(o)) == Raw(tag, o)
  {
    OneField(Opt(tag, Bytes), B(o.GetOr([])));
  }

  lemma Fixed4Laid(tag: nat, o: Option<uint32>)
    ensures FieldLines(Opt(tag, Num(Fixed32)), Ints(o)) == Fixed4(tag, o)
  {
    OneField(Opt(tag, Num(Fixed32)), N(o.GetOr(0)));
  }

  lemma Fixed8Laid(tag: nat, o: Option<uint64>)
    ensures FieldLines(Opt(tag, Num(Fixed64)), Ints(o)) == Fixed8(tag, o)
  {
    OneField(Opt(tag, Num(Fixed64)), N(o.GetOr(0)));
  }

  lemma InnerLaid(tag: nat, schema: Schema, o: Option<Message>)
    ensures FieldLines(Opt(tag, Msg(schema)), if o.Some? then [M(o.value)] else [])
         == Inner(tag, Map(o, (m: Message) => Lines(schema, m)))
  {
    hide Lines;
    OneField(Opt(tag, Msg(schema)), M(o.GetOr([])));
  }

  // The lines of a message are those of its fields.
  lemma LinesAre(fs: Schema, m: Message, parts: seq<seq<Line>>)
    requires |fs| == |m| == |parts|
    requires forall i :: 0 <= i < |fs| ==> FieldLines(fs[i], m[i]) == parts[i]
    ensures Lines(fs, m) == Flat(parts)
  {
    hide FieldLines;
    assert seq(|fs|, i requires 0 <= i < |fs| => FieldLines(fs[i], Slot(m, i))) == parts;
  }

  lemma VersionLaid(tag: nat, o: Option<QueueVersion>)
    ensures FieldLines(Opt(tag, Msg(QUEUE_VERSION_S)), Versions(o)) == Inner(tag, Map(o, VersionLayout))
  {
    hide Lines, FieldLines, Whole;
    match o
    case None => InnerLaid(tag, QUEUE_VERSION_S, None);
    case Some(v) =>
      InnerLaid(tag, QUEUE_VERSION_S, Some(VersionFields(v)));
      WholeLaid(1, Uint64, v.major);
      WholeLaid(2, Int32, v.minor);
      LinesAre(QUEUE_VERSION_S, VersionFields(v), [Whole(1, v.major), Whole(2, v.minor)]);
  }

  lemma PositionLaid(tag: nat, o: Option<Position>)
    ensures FieldLines(Opt(tag, Msg(POSITION_S)), Positions(o)) == Inner(tag, Map(o, PositionLayout))
  {
    hide Lines, FieldLines, Whole, Fixed8;
    match o
    case None => InnerLaid(tag, POSITION_S, None);
    case Some(p) =>
      InnerLaid(tag, POSITION_S, Some(PositionFields(p)));
      Fixed8Laid(1, p.timestamp);
      WholeLaid(2, Uint32, p.value);
      LinesAre(POSITION_S, PositionFields(p), [Fixed8(1, p.timestamp), Whole(2, p.value)]);
  }

  lemma CapabilitiesLaid(tag: nat, o: Option<DeviceCapabilities>)
    ensures FieldLines(Opt(tag, Msg(CAPABILITIES_S)), if o.Some? then [M(CapabilityFields(o.value))] else [])
         == Inner(tag, Map(o, CapabilitiesLayout))
  {
    hide Lines, FieldLines, Whole;
    match o
    case None => InnerLaid(tag, CAPABILITIES_S, None);
    case Some(c) =>
      InnerLaid(tag, CAPABILITIES_S, Some(CapabilityFields(c)));
      WholeLaid(1, Int32, c.minAudioQuality);
      WholeLaid(2, Int32, c.maxAudioQuality);
      WholeLaid(3, Int32, c.volumeRemoteControl);
      LinesAre(CAPABILITIES_S, CapabilityFields(c),
        [Whole(1, c.minAudioQuality), Whole(2, c.maxAudioQuality), Whole(3, c.volumeRemoteControl)]);
  }

  lemma DeviceLaid(tag: nat, o: Option<DeviceInfo>)
    ensures FieldLines(Opt(tag, Msg(DEVICE_INFO_S)), DeviceInfos(o)) == Inner(tag, Map(o, DeviceLayout))
  {
    hide Lines, FieldLines, DeviceLayout, DeviceInfoFields;
    match o
    case None => InnerLaid(tag, DEVICE_INFO_S, None);
    case Some(d) =>
      InnerLaid(tag, DEVICE_INFO_S, Some(DeviceInfoFields(d)));
      DeviceFields(d);
  }

  lemma DeviceFields(d: DeviceInfo)
    ensures Lines(DEVICE_INFO_S, DeviceInfoFields(d)) == DeviceLayout(d)
  {
    hide Lines, FieldLines, Whole, Raw, Inner, CapabilityFields, Ints, Strs;
    RawLaid(1, d.deviceUuid);
    RawLaid(2, d.friendlyName);
    RawLaid(3, d.brand);
    RawLaid(4, d.model);
    RawLaid(5, d.serialNumber);
    WholeLaid(6, Int32, d.deviceType);
    CapabilitiesLaid(7, d.capabilities);
    RawLaid(8, d.softwareVersion);
    LinesAre(DEVICE_INFO_S, DeviceInfoFields(d),
      [Raw(1, d.deviceUuid), Raw(2, d.friendlyName), Raw(3, d.brand), Raw(4, d.model), Raw(5, d.serialNumber),
       Whole(6, d.deviceType), Inner(7, Map(d.capabilities, CapabilitiesLayout)), Raw(8, d.softwareVersion)]);
  }

  lemma RendererStateLaid(s: RendererState)
    ensures Lines(RENDERER_STATE_S, RendererStateFields(s)) == RendererStateLayout(s)
  {
    hide Lines, FieldLines, Whole, Inner, Positions, Ints;
    WholeLaid(1, Int32, s.playingState);
    WholeLaid(2, Int32, s.bufferState);
    PositionLaid(3, s.currentPosition);
    WholeLaid(4, Uint32, s.duration);
    WholeLaid(5, Uint32, s.currentQueueIndex);
    WholeLaid(7, Int32, s.nextQueueItemId);
    LinesAre(RENDERER_STATE_S, RendererStateFields(s),
      [Whole(1, s.playingState), Whole(2, s.bufferState), Inner(3, Map(s.currentPosition, PositionLayout)),
       Whole(4, s.duration), Whole(5, s.currentQueueIndex), Whole(7, s.nextQueueItemId)]);
  }

  lemma StateLaid(s: QueueRendererState)
    ensures Lines(QUEUE_RENDERER_STATE_S, QueueRendererStateFields(s)) == StateLayout(s)
  {
    hide Lines, FieldLines, Whole, Inner, Positions, Versions, Ints;
    WholeLaid(1, Int32, s.playingState);
    WholeLaid(2, Int32, s.bufferState);
    PositionLaid(3, s.currentPosition);
    WholeLaid(4, Uint32, s.duration);
    VersionLaid(5, s.queueVersion);
    WholeLaid(6, Int32, s.currentQueueItemId);
    WholeLaid(7, Int32, s.nextQueueItemId);
    LinesAre(QUEUE_RENDERER_STATE_S, QueueRendererStateFields(s),
      [Whole(1, s.playingState), Whole(2, s.bufferState), Inner(3, Map(s.currentPosition, PositionLayout)),
       Whole(4, s.duration), Inner(5, Map(s.queueVersion, VersionLayout)),
       Whole(6, s.currentQueueItemId), Whole(7, s.nextQueueItemId)]);
  }

  lemma TrackLinesLaid(t: QueueTrackRef)
    ensures Lines(TRACK_S, TrackFields(t)) == TrackLayout(t)
  {
    hide Lines, FieldLines, Fixed4, Raw, Ints, Strs;
    OneField(Req(1, Uint64), N(t.queueItemId));
    Fixed4Laid(2, t.trackId);
    RawLaid(3, t.contextUuid);
    LinesAre(TRACK_S, TrackFields(t),
      [[Line(1, Number(t.queueItemId))], Fixed4(2, t.trackId), Raw(3, t.contextUuid)]);
  }

  lemma TrackLaid(tag: nat, o: Option<QueueTrackRef>)
    ensures FieldLines(Opt(tag, Msg(TRACK_S)), Track(o)) == Inner(tag, Map(o, TrackLayout))
  {
    hide Lines, FieldLines, TrackLayout, TrackFields;
    match o
    case None => InnerLaid(tag, TRACK_S, None);
    case Some(t) =>
      InnerLaid(tag, TRACK_S, Some(TrackFields(t)));
      TrackLinesLaid(t);
  }

  lemma TracksLaid(tag: nat, ts: seq<QueueTrackRef>)
    ensures FieldLines(Rep(tag, Msg(TRACK_S)), Tracks(ts)) == TracksLayout(tag, ts)
  {
    hide Lines, TrackLayout, TrackFields;
    forall i | 0 <= i < |ts| ensures LineOf(Rep(tag, Msg(TRACK_S)), Tracks(ts)[i]) == TracksLayout(tag, ts)[i] {
      TrackLinesLaid(ts[i]);
    }
  }

  lemma SetStateLaid(s: SetState)
    ensures Lines(SET_STATE_S, BodyValues(SetStateBody(s))) == SetStateLayout(s)
  {
    hide Lines, FieldLines, Whole, Inner, Versions, Track, Ints;
    WholeLaid(1, Int32, s.playingState);
    WholeLaid(2, Uint32, s.currentPosition);
    VersionLaid(3, s.queueVersion);
    TrackLaid(4, s.currentQueueItem);
    TrackLaid(5, s.nextQueueItem);
    LinesAre(SET_STATE_S, BodyValues(SetStateBody(s)),
      [Whole(1, s.playingState), Whole(2, s.currentPosition), Inner(3, Map(s.queueVersion, VersionLayout)),
       Inner(4, Map(s.currentQueueItem, TrackLayout)), Inner(5, Map(s.nextQueueItem, TrackLayout))]);
  }

  lemma SessionStateLaid(s: SessionState)
    ensures Lines(SESSION_STATE_S, BodyValues(SessionStateBody(s))) == SessionStateLayout(s)
  {
    hide Lines, FieldLines, Whole, Inner, Raw, Flag, Versions, Ints, Bools, Strs;
    RawLaid(1, s.sessionUuid);
    WholeLaid(2, Uint64, s.sessionId);
    VersionLaid(3, s.queueVersion);
    WholeLaid(4, Uint32, s.trackIndex);
    FlagLaid(5, s.unknown);
    LinesAre(SESSION_STATE_S, BodyValues(SessionStateBody(s)),
      [Raw(1, s.sessionUuid), Whole(2, s.sessionId), Inner(3, Map(s.queueVersion, VersionLayout)),
       Whole(4, s.trackIndex), Flag(5, s.unknown)]);
  }

  lemma QueueStateLaid(q: QueueState)
    ensures Lines(QUEUE_STATE_S, BodyValues(QueueStateBody(q))) == QueueStateLayout(q)
  {
    hide Lines, FieldLines, Whole, Inner, Raw, Flag, TracksLayout, IndexesLayout, Versions, Ints, Bools,
      Strs, Tracks, Indexes;
    VersionLaid(1, q.queueVersion);
    RawLaid(2, q.actionUuid);
    TracksLaid(3, q.tracks);
    FlagLaid(4, q.shuffleMode);
    IndexesLaid(5, q.shuffledTrackIndexes);
    FlagLaid(6, q.autoplayMode);
    FlagLaid(7, q.autoplayLoading);
    TracksLaid(8, q.autoplayTracks);
    RawLaid(100, q.queueHash);
    LinesAre(QUEUE_STATE_S, BodyValues(QueueStateBody(q)),
      [Inner(1, Map(q.queueVersion, VersionLayout)), Raw(2, q.actionUuid), TracksLayout(3, q.tracks),
       Flag(4, q.shuffleMode), IndexesLayout(5, q.shuffledTrackIndexes),
       Flag(6, q.autoplayMode), Flag(7, q.autoplayLoading), TracksLayout(8, q.autoplayTracks),
       Raw(100, q.queueHash)]);
  }

  lemma IndexesLaid(tag: nat, xs: seq<uint32>)
    ensures FieldLines(Rep(tag, Num(Uint32)), Indexes(xs)) == IndexesLayout(tag, xs)
  {
    var f := Rep(tag, Num(Uint32));
    forall i | 0 <= i < |xs| ensures FieldLines(f, Indexes(xs))[i] == IndexesLayout(tag, xs)[i] {
      assert LineOf(f, N(xs[i])) == Line(tag, Number(xs[i]));
    }
  }

  // One field holding a number, a flag.
  lemma OneWholeLaid(k: Scalar, o: Option<int>)
    requires !k.Fixed32? && !k.Fixed64? && (o.Some? ==> o.value >= -0x8000_0000)
    ensures Lines([Opt(1, Num(k))], [Ints(o)]) == Flat([Whole(1, o)])
  {
    hide Lines, FieldLines, Whole;
    WholeLaid(1, k, o);
    LinesAre([Opt(1, Num(k))], [Ints(o)], [Whole(1, o)]);
  }

  lemma OneFlagLaid(o: Option<bool>)
    ensures Lines([Opt(1, Num(Bool))], [Bools(o)]) == Flat([Flag(1, o)])
  {
    hide Lines, FieldLines, Flag;
    FlagLaid(1, o);
    LinesAre([Opt(1, Num(Bool))], [Bools(o)], [Flag(1, o)]);
  }

  lemma StateUpdatedLaid(o: Option<QueueRendererState>)
    ensures Lines([Opt(1, Msg(QUEUE_RENDERER_STATE_S))], BodyValues(StateUpdatedBody(o)))
         == Flat([Inner(1, Map(o, StateLayout))])
  {
    hide Lines, FieldLines, StateLayout, QueueRendererStateFields;
    if o.Some? {
      StateLaid(o.value);
    }
    InnerLaid(1, QUEUE_RENDERER_STATE_S, Map(o, QueueRendererStateFields));
    LinesAre([Opt(1, Msg(QUEUE_RENDERER_STATE_S))], BodyValues(StateUpdatedBody(o)), [Inner(1, Map(o, StateLayout))]);
  }

  lemma RendererStateUpdatedLaid(u: RendererStateUpdated)
    ensures Lines(RENDERER_STATE_UPDATED_S, BodyValues(RendererStateUpdatedBody(u)))
         == Flat([Whole(1, u.rendererId), Whole(2, u.messageId), Inner(3, Map(u.state, RendererStateLayout))])
  {
    hide Lines, FieldLines, Whole, Ints, RendererStateLayout, RendererStateFields;
    WholeLaid(1, Uint64, u.rendererId);
    WholeLaid(2, Uint64, u.messageId);
    if u.state.Some? {
      RendererStateLaid(u.state.value);
    }
    InnerLaid(3, RENDERER_STATE_S, Map(u.state, RendererStateFields));
    LinesAre(RENDERER_STATE_UPDATED_S, BodyValues(RendererStateUpdatedBody(u)),
      [Whole(1, u.rendererId), Whole(2, u.messageId), Inner(3, Map(u.state, RendererStateLayout))]);
  }

  lemma AddRendererLaid(a: AddRenderer)
    ensures Lines([Opt(1, Num(Uint64)), Opt(2, Msg(DEVICE_INFO_S))], BodyValues(AddRendererBody(a)))
         == Flat([Whole(1, a.rendererId), Inner(2, Map(a.renderer, DeviceLayout))])
  {
    hide Lines, FieldLines, Whole, Inner, Ints, DeviceLayout, DeviceInfos;
    WholeLaid(1, Uint64, a.rendererId);
    DeviceLaid(2, a.renderer);
    LinesAre([Opt(1, Num(Uint64)), Opt(2, Msg(DEVICE_INFO_S))], BodyValues(AddRendererBody(a)),
      [Whole(1, a.rendererId), Inner(2, Map(a.renderer, DeviceLayout))]);
  }

  lemma JoinSessionLaid(uuid: Option<seq<byte>>, info: Option<DeviceInfo>)
    ensures Lines([Opt(1, Bytes), Opt(2, Msg(DEVICE_INFO_S))], BodyValues(JoinSessionBody(uuid, info)))
         == Flat([Raw(1, uuid), Inner(2, Map(info, DeviceLayout))])
  {
    hide Lines, FieldLines, Raw, Inner, Strs, DeviceLayout, DeviceInfos;
    RawLaid(1, uuid);
    DeviceLaid(2, info);
    LinesAre([Opt(1, Bytes), Opt(2, Msg(DEVICE_INFO_S))], BodyValues(JoinSessionBody(uuid, info)),
      [Raw(1, uuid), Inner(2, Map(info, DeviceLayout))]);
  }

  lemma AskForQueueStateLaid(version: Option<QueueVersion>, uuid: Option<seq<byte>>)
    ensures Lines([Opt(1, Msg(QUEUE_VERSION_S)), Opt(2, Bytes)], BodyValues(AskForQueueStateBody(version, uuid)))
         == Flat([Inner(1, Map(version, VersionLayout)), Raw(2, uuid)])
  {
    hide Lines, FieldLines, Raw, Inner, Strs, VersionLayout, Versions;
    VersionLaid(1, version);
    RawLaid(2, uuid);
    LinesAre([Opt(1, Msg(QUEUE_VERSION_S)), Opt(2, Bytes)], BodyValues(AskForQueueStateBody(version, uuid)),
      [Inner(1, Map(version, VersionLayout)), Raw(2, uuid)]);
  }

  lemma SetVolumeLaid(s: SetVolume)
    ensures Lines([Opt(1, Num(Uint32)), Opt(2, Num(Int32))], BodyValues(SetVolumeBody(s)))
         == Flat([Whole(1, s.volume), Whole(2, s.volumeDelta)])
  {
    hide Lines, FieldLines, Whole, Ints;
    WholeLaid(1, Uint32, s.volume);
    WholeLaid(2, Int32, s.volumeDelta);
    LinesAre([Opt(1, Num(Uint32)), Opt(2, Num(Int32))], BodyValues(SetVolumeBody(s)),
      [Whole(1, s.volume), Whole(2, s.volumeDelta)]);
  }

  lemma SmallBodyLaid(tag: nat, b: Body)
    requires BodyFits(tag, b) && TypedBodySchema(tag).Some?
    requires b.VolumeChangedBody? || b.FileAudioQualityBody? || b.MaxAudioQualityBody? || b.VolumeMutedBody?
      || b.SetActiveBody? || b.SetActiveRendererBody? || b.AskForRendererStateBody? || b.RemoveRendererBody?
      || b.LoopModeSetBody?
    ensures Lines(TypedBodySchema(tag).value, BodyValues(b)) == BodyLayout(tag, b)
  {
    hide Lines, Whole, Flag, Ints, Bools, Flat;
    match b
    case VolumeChangedBody(volume) => OneWholeLaid(Uint32, volume);
    case FileAudioQualityBody(rate) => OneWholeLaid(Int32, rate);
    case MaxAudioQualityBody(quality) => OneWholeLaid(Int32, quality);
    case VolumeMutedBody(muted) => OneFlagLaid(muted);
    case SetActiveBody(s) => OneFlagLaid(s.active);
    case SetActiveRendererBody(id) => OneWholeLaid(Int32, id);
    case AskForRendererStateBody(id) => OneWholeLaid(Uint64, id);
    case RemoveRendererBody(id) => OneWholeLaid(Uint64, id);
    case LoopModeSetBody(mode) => OneWholeLaid(Int32, mode);
  }

  // Every body under its tag has its layout.
  lemma BodyLaid(tag: nat, b: Body)
    requires BodyFits(tag, b) && BodySchema(tag).Some?
    ensures Lines(BodySchema(tag).value, BodyValues(b)) == BodyLayout(tag, b)
  {
    hide Lines, Whole, Flag, Ints, Bools, Flat, OtherBodySchema;
    MessagesTheorems.NoOverlap(tag);
    match b
    case StateUpdatedBody(state) => StateUpdatedLaid(state);
    case SetStateBody(s) => SetStateLaid(s);
    case SetVolumeBody(s) => SetVolumeLaid(s);
    case JoinSessionBody(uuid, info) => JoinSessionLaid(uuid, info);
    case AskForQueueStateBody(version, uuid) => AskForQueueStateLaid(version, uuid);
    case SessionStateBody(s) => SessionStateLaid(s);
    case RendererStateUpdatedBody(u) => RendererStateUpdatedLaid(u);
    case AddRendererBody(a) => AddRendererLaid(a);
    case QueueStateBody(q) => QueueStateLaid(q);
    case OtherBody(_) =>
    case _ => SmallBodyLaid(tag, b);
  }
}
