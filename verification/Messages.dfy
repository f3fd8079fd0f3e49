// The generated message structs the session works with, their field tags, and the
// two conversions between a struct and the generic field values of module Wire.
// Field order in a schema is tag order, which is the order prost writes.
module Messages {
  import opened Basics
  import opened Wire

  // ---- Structs ----------------------------------------------------------------

  datatype QueueVersion = QueueVersion(major: Option<uint64>, minor: Option<int32>)

  datatype Position = Position(timestamp: Option<uint64>, value: Option<uint32>)

  datatype DeviceInfo = DeviceInfo(
    deviceUuid: Option<seq<byte>>, friendlyName: Option<seq<byte>>, brand: Option<seq<byte>>,
    model: Option<seq<byte>>, serialNumber: Option<seq<byte>>, deviceType: Option<int32>,
    capabilities: Option<DeviceCapabilities>, softwareVersion: Option<seq<byte>>)

  datatype DeviceCapabilities = DeviceCapabilities(
    minAudioQuality: Option<int32>, maxAudioQuality: Option<int32>, volumeRemoteControl: Option<int32>)

  datatype RendererState = RendererState(
    playingState: Option<int32>, bufferState: Option<int32>, currentPosition: Option<Position>,
    duration: Option<uint32>, currentQueueIndex: Option<uint32>, nextQueueItemId: Option<int32>)

  datatype QueueRendererState = QueueRendererState(
    playingState: Option<int32>, bufferState: Option<int32>, currentPosition: Option<Position>,
    duration: Option<uint32>, queueVersion: Option<QueueVersion>,
    currentQueueItemId: Option<int32>, nextQueueItemId: Option<int32>)

  datatype QueueTrackRef = QueueTrackRef(
    queueItemId: uint64, trackId: Option<uint32>, contextUuid: Option<seq<byte>>)

  datatype SetState = SetState(
    playingState: Option<int32>, currentPosition: Option<uint32>, queueVersion: Option<QueueVersion>,
    currentQueueItem: Option<QueueTrackRef>, nextQueueItem: Option<QueueTrackRef>)

  datatype SetVolume = SetVolume(volume: Option<uint32>, volumeDelta: Option<int32>)

  datatype SetActive = SetActive(active: Option<bool>)

  datatype SessionState = SessionState(
    sessionUuid: Option<seq<byte>>, sessionId: Option<uint64>, queueVersion: Option<QueueVersion>,
    trackIndex: Option<uint32>, unknown: Option<bool>)

  datatype RendererStateUpdated = RendererStateUpdated(
    rendererId: Option<uint64>, messageId: Option<uint64>, state: Option<RendererState>)

  datatype AddRenderer = AddRenderer(rendererId: Option<uint64>, renderer: Option<DeviceInfo>)

  datatype QueueState = QueueState(
    queueVersion: Option<QueueVersion>, actionUuid: Option<seq<byte>>, tracks: seq<QueueTrackRef>,
    shuffleMode: Option<bool>, shuffledTrackIndexes: seq<uint32>, autoplayMode: Option<bool>,
    autoplayLoading: Option<bool>, autoplayTracks: seq<QueueTrackRef>, queueHash: Option<seq<byte>>)

  // One populated message field of `QConnectMessage`. Bodies nobody looks inside
  // keep their field values as they are on the wire.
  datatype Body =
    | StateUpdatedBody(state: Option<QueueRendererState>)
    | VolumeChangedBody(volume: Option<uint32>)
    | FileAudioQualityBody(sampleRate: Option<int32>)
    | MaxAudioQualityBody(quality: Option<int32>)
    | VolumeMutedBody(muted: Option<bool>)
    | SetStateBody(setState: SetState)
    | SetVolumeBody(setVolume: SetVolume)
    | SetActiveBody(setActive: SetActive)
    | JoinSessionBody(sessionUuid: Option<seq<byte>>, deviceInfo: Option<DeviceInfo>)
    | SetActiveRendererBody(rendererId: Option<int32>)
    | AskForQueueStateBody(queueVersion: Option<QueueVersion>, queueUuid: Option<seq<byte>>)
    | AskForRendererStateBody(sessionId: Option<uint64>)
    | SessionStateBody(sessionState: SessionState)
    | RendererStateUpdatedBody(updated: RendererStateUpdated)
    | AddRendererBody(add: AddRenderer)
    | RemoveRendererBody(removed: Option<uint64>)
    | QueueStateBody(queueState: QueueState)
    | LoopModeSetBody(mode: Option<int32>)
    | OtherBody(fields: Message)

  // `message_type` and the populated message fields under their tags.
  datatype QConnectMessage = QConnectMessage(messageType: Option<int32>, bodies: map<nat, Body>)

  datatype QConnectBatch = QConnectBatch(
    messagesTime: Option<uint64>, messagesId: Option<int32>, messages: seq<QConnectMessage>)

  datatype Payload = Payload(
    msgId: Option<uint32>, msgDate: Option<uint64>, proto: Option<uint32>, src: Option<seq<byte>>,
    dests: seq<seq<byte>>, payload: Option<seq<byte>>)

  // ---- Field tags of the QConnectMessage bodies ---------------------------------

  const STATE_UPDATED := 23
  const VOLUME_CHANGED := 25
  const FILE_AUDIO_QUALITY_CHANGED := 26
  const MAX_AUDIO_QUALITY_CHANGED := 28
  const VOLUME_MUTED := 29
  const SET_STATE := 41
  const SET_VOLUME := 42
  const SET_ACTIVE := 43
  const JOIN_SESSION := 61
  const SET_ACTIVE_RENDERER := 63
  const CLEAR_QUEUE := 65
  const QUEUE_LOAD_TRACKS := 66
  const QUEUE_INSERT_TRACKS := 67
  const QUEUE_ADD_TRACKS := 68
  const QUEUE_REMOVE_TRACKS := 69
  const QUEUE_REORDER_TRACKS := 70
  const ASK_FOR_QUEUE_STATE := 76
  const ASK_FOR_RENDERER_STATE := 77
  const SESSION_STATE := 81
  const RENDERER_STATE_UPDATED := 82
  const ADD_RENDERER := 83
  const REMOVE_RENDERER := 85
  const QUEUE_STATE := 90
  const LOOP_MODE_SET := 97

  // ---- Schemas -------------------------------------------------------------------

  const QUEUE_VERSION_S: Schema := [Opt(1, Num(Uint64)), Opt(2, Num(Int32))]

  const POSITION_S: Schema := [Opt(1, Num(Fixed64)), Opt(2, Num(Uint32))]

  const CAPABILITIES_S: Schema := [Opt(1, Num(Int32)), Opt(2, Num(Int32)), Opt(3, Num(Int32))]

  const DEVICE_INFO_S: Schema := [
    Opt(1, Bytes), Opt(2, Bytes), Opt(3, Bytes), Opt(4, Bytes), Opt(5, Bytes),
    Opt(6, Num(Int32)), Opt(7, Msg(CAPABILITIES_S)), Opt(8, Bytes)]

  const RENDERER_STATE_S: Schema := [
    Opt(1, Num(Int32)), Opt(2, Num(Int32)), Opt(3, Msg(POSITION_S)),
    Opt(4, Num(Uint32)), Opt(5, Num(Uint32)), Opt(7, Num(Int32))]

  const QUEUE_RENDERER_STATE_S: Schema := [
    Opt(1, Num(Int32)), Opt(2, Num(Int32)), Opt(3, Msg(POSITION_S)), Opt(4, Num(Uint32)),
    Opt(5, Msg(QUEUE_VERSION_S)), Opt(6, Num(Int32)), Opt(7, Num(Int32))]

  const TRACK_S: Schema := [Req(1, Uint64), Opt(2, Num(Fixed32)), Opt(3, Bytes)]

  const SET_STATE_S: Schema := [
    Opt(1, Num(Int32)), Opt(2, Num(Uint32)), Opt(3, Msg(QUEUE_VERSION_S)),
    Opt(4, Msg(TRACK_S)), Opt(5, Msg(TRACK_S))]

  const SESSION_STATE_S: Schema := [
    Opt(1, Bytes), Opt(2, Num(Uint64)), Opt(3, Msg(QUEUE_VERSION_S)),
    Opt(4, Num(Uint32)), Opt(5, Num(Bool))]

  const RENDERER_STATE_UPDATED_S: Schema := [
    Opt(1, Num(Uint64)), Opt(2, Num(Uint64)), Opt(3, Msg(RENDERER_STATE_S))]

  const QUEUE_STATE_S: Schema := [
    Opt(1, Msg(QUEUE_VERSION_S)), Opt(2, Bytes), Rep(3, Msg(TRACK_S)), Opt(4, Num(Bool)),
    Rep(5, Num(Uint32)), Opt(6, Num(Bool)), Opt(7, Num(Bool)), Rep(8, Msg(TRACK_S)), Opt(100, Bytes)]

  const PAYLOAD_S: Schema := [
    Opt(1, Num(Uint32)), Opt(2, Num(Uint64)), Opt(3, Num(Uint32)), Opt(4, Bytes),
    Rep(5, Bytes), Opt(7, Bytes)]

  // The bodies with a typed form above.
  function TypedBodySchema(tag: nat): Option<Schema> {
    match tag
    case 23 => Some([Opt(1, Msg(QUEUE_RENDERER_STATE_S))])
    case 25 => Some([Opt(1, Num(Uint32))])
    case 26 => Some([Opt(1, Num(Int32))])
    case 28 => Some([Opt(1, Num(Int32))])
    case 29 => Some([Opt(1, Num(Bool))])
    case 41 => Some(SET_STATE_S)
    case 42 => Some([Opt(1, Num(Uint32)), Opt(2, Num(Int32))])
    case 43 => Some([Opt(1, Num(Bool))])
    case 61 => Some([Opt(1, Bytes), Opt(2, Msg(DEVICE_INFO_S))])
    case 63 => Some([Opt(1, Num(Int32))])
    case 76 => Some([Opt(1, Msg(QUEUE_VERSION_S)), Opt(2, Bytes)])
    case 77 => Some([Opt(1, Num(Uint64))])
    case 81 => Some(SESSION_STATE_S)
    case 82 => Some(RENDERER_STATE_UPDATED_S)
    case 83 => Some([Opt(1, Num(Uint64)), Opt(2, Msg(DEVICE_INFO_S))])
    case 85 => Some([Opt(1, Num(Uint64))])
    case 90 => Some(QUEUE_STATE_S)
    case 97 => Some([Opt(1, Num(Int32))])
    case _ => None
  }

  const ERROR_S: Schema := [Opt(1, Bytes), Opt(2, Bytes)]

  const SHUFFLE_S: Schema := [
    Opt(1, Msg(QUEUE_VERSION_S)), Opt(2, Bytes), Opt(3, Num(Bool)), Opt(4, Num(Fixed32)),
    Opt(5, Num(Uint32)), Opt(6, Num(Bool)), Opt(7, Num(Bool)), Opt(100, Bytes)]

  const TRACKS_INSERTED_S: Schema := [
    Opt(1, Msg(QUEUE_VERSION_S)), Opt(2, Bytes), Rep(3, Msg(TRACK_S)), Opt(4, Num(Int32)),
    Opt(5, Num(Fixed32)), Opt(6, Bytes), Opt(7, Num(Bool)), Opt(8, Num(Bool)), Opt(100, Bytes)]

  const TRACKS_ADDED_S: Schema := [
    Opt(1, Msg(QUEUE_VERSION_S)), Opt(2, Bytes), Rep(3, Msg(TRACK_S)), Opt(4, Num(Fixed32)),
    Opt(5, Bytes), Opt(6, Num(Bool)), Opt(7, Num(Bool)), Opt(100, Bytes)]

  const TRACKS_REMOVED_S: Schema := [
    Opt(1, Msg(QUEUE_VERSION_S)), Opt(2, Bytes), Rep(3, Num(Uint32)), Opt(4, Num(Bool)),
    Opt(5, Num(Bool)), Opt(100, Bytes)]

  const ONE_INT32_S: Schema := [Opt(1, Num(Int32))]
  const ONE_BOOL_S: Schema := [Opt(1, Num(Bool))]

  // The bodies that are passed on unread: errors, renderer and controller messages.
  function RendererBodySchema(tag: nat): Option<Schema> {
    match tag
    case 2 => Some(ERROR_S)
    case 3 => Some([Opt(1, Msg(QUEUE_VERSION_S)), Opt(2, Num(Int32)), Opt(3, Num(Int32))])
    case 4 => Some([Opt(1, Bytes)])
    case 21 => Some([
      Opt(1, Bytes), Opt(2, Msg(DEVICE_INFO_S)), Opt(3, Num(Int32)), Opt(4, Msg(RENDERER_STATE_S)),
      Opt(5, Num(Bool))])
    case 22 => Some([Opt(1, Msg(DEVICE_INFO_S))])
    case 27 => Some(ONE_INT32_S)
    case 30 => Some(ONE_INT32_S)
    case 44 => Some(ONE_INT32_S)
    case 45 => Some(ONE_INT32_S)
    case 46 => Some(ONE_BOOL_S)
    case 47 => Some(ONE_BOOL_S)
    case _ => None
  }

  function ControllerBodySchema(tag: nat): Option<Schema> {
    match tag
    case 62 => Some([
      Opt(1, Num(Int32)), Opt(2, Num(Uint32)),
      Opt(3, Msg([Opt(1, Msg(QUEUE_VERSION_S)), Opt(2, Num(Uint32))]))])
    case 64 => Some([Opt(1, Num(Int32)), Opt(2, Num(Uint32)), Opt(3, Num(Int32))])
    case 65 => Some([Opt(1, Msg(QUEUE_VERSION_S))])
    case 66 => Some([
      Opt(1, Msg(QUEUE_VERSION_S)), Opt(2, Bytes), Opt(3, Bytes), Opt(4, Num(Uint32)),
      Opt(5, Num(Fixed32)), Opt(6, Num(Int32)), Opt(7, Num(Bool)), Opt(8, Bytes),
      Opt(9, Num(Bool)), Opt(10, Num(Bool)), Opt(100, Bytes)])
    case 67 => Some(TRACKS_INSERTED_S)
    case 68 => Some(TRACKS_ADDED_S)
    case 69 => Some([
      Opt(1, Msg(QUEUE_VERSION_S)), Opt(2, Bytes), Rep(3, Num(Int32)), Opt(4, Num(Bool)),
      Opt(5, Num(Bool)), Opt(100, Bytes)])
    case 70 => Some([
      Opt(1, Msg(QUEUE_VERSION_S)), Opt(2, Bytes), Rep(3, Num(Int32)), Opt(4, Num(Int32)),
      Opt(5, Num(Bool)), Opt(6, Num(Bool)), Opt(100, Bytes)])
    case 71 => Some(SHUFFLE_S)
    case 72 => Some(ONE_INT32_S)
    case 73 => Some([Opt(1, Num(Int32)), Opt(2, Num(Bool))])
    case 74 => Some(ONE_INT32_S)
    case 75 => Some([])
    case 78 => Some(ONE_BOOL_S)
    case 79 => Some([
      Opt(1, Msg(QUEUE_VERSION_S)), Opt(2, Bytes), Rep(3, Num(Fixed32)), Opt(4, Bytes),
      Opt(5, Num(Bool)), Opt(6, Num(Bool)), Opt(7, Num(Uint32)), Opt(8, Num(Uint32)),
      Opt(9, Num(Bool)), Opt(10, Num(Bool)), Opt(100, Bytes)])
    case 80 => Some([])
    case _ => None
  }

  // Unread bodies of messages from the server to controllers.
  function ServerBodySchema(tag: nat): Option<Schema> {
    match tag
    case 84 => Some([Opt(1, Msg(DEVICE_INFO_S))])
    case 86 => Some([Opt(1, Num(Uint64))])
    case 87 => Some([Opt(1, Num(Uint64)), Opt(2, Num(Uint32))])
    case 88 => Some([Opt(1, Msg(QUEUE_VERSION_S)), Opt(2, Bytes), Opt(3, Msg(ERROR_S))])
    case 89 => Some([Opt(1, Msg(QUEUE_VERSION_S)), Opt(2, Bytes)])
    case 91 => Some([
      Opt(1, Msg(QUEUE_VERSION_S)), Opt(2, Bytes), Rep(3, Msg(TRACK_S)), Opt(4, Num(Uint32)),
      Opt(5, Num(Fixed32)), Opt(6, Num(Int32)), Opt(7, Num(Bool)), Opt(8, Bytes),
      Opt(9, Num(Bool)), Opt(10, Num(Bool)), Opt(100, Bytes)])
    case 92 => Some(TRACKS_INSERTED_S)
    case 93 => Some(TRACKS_ADDED_S)
    case 94 => Some(TRACKS_REMOVED_S)
    case 95 => Some([
      Opt(1, Msg(QUEUE_VERSION_S)), Opt(2, Bytes), Rep(3, Num(Uint32)), Opt(4, Num(Uint32)),
      Opt(5, Num(Bool)), Opt(6, Num(Bool)), Opt(100, Bytes)])
    case 96 => Some(SHUFFLE_S)
    case 98 => Some([Opt(1, Num(Uint64)), Opt(2, Num(Bool))])
    case 99 => Some(ONE_INT32_S)
    case 100 => Some(ONE_INT32_S)
    case 101 => Some(ONE_INT32_S)
    case 102 => Some(ONE_BOOL_S)
    case 103 => Some([
      Opt(1, Msg(QUEUE_VERSION_S)), Opt(2, Bytes), Rep(3, Msg(TRACK_S)), Opt(4, Bytes)])
    case 104 => Some(TRACKS_REMOVED_S)
    case 105 => Some([Opt(1, Msg(QUEUE_VERSION_S))])
    case _ => None
  }

  function OtherBodySchema(tag: nat): Option<Schema> {
    if tag < 60 then RendererBodySchema(tag)
    else if tag < 81 then ControllerBodySchema(tag)
    else ServerBodySchema(tag)
  }

  function BodySchema(tag: nat): Option<Schema> {
    if TypedBodySchema(tag).Some? then TypedBodySchema(tag) else OtherBodySchema(tag)
  }

  // The numbers below `n` that satisfy `known`, in order.
  function TagsBelow(n: nat, known: nat -> bool): (tags: seq<nat>)
    ensures forall i :: 0 <= i < |tags| ==> tags[i] < n && known(tags[i])
    ensures forall i, j :: 0 <= i < j < |tags| ==> tags[i] < tags[j]
    ensures forall t :: 0 <= t < n && known(t) ==> t in tags
  {
    if n == 0 then []
    else if known(n - 1) then TagsBelow(n - 1, known) + [n - 1]
    else TagsBelow(n - 1, known)
  }

  // Tags of the message fields of QConnectMessage, in order.
  function BodyTags(): (tags: seq<nat>)
    ensures forall i :: 0 <= i < |tags| ==> BodySchema(tags[i]).Some?
  {
    TagsBelow(106, (t: nat) => BodySchema(t).Some?)
  }

  function BodyFields(tags: seq<nat>): (fs: Schema)
    requires forall i :: 0 <= i < |tags| ==> BodySchema(tags[i]).Some?
    ensures |fs| == |tags|
  {
    seq(|tags|, i requires 0 <= i < |tags| => Opt(tags[i], Msg(BodySchema(tags[i]).value)))
  }

  function MessageSchema(): Schema {
    [Opt(1, Num(Int32))] + BodyFields(BodyTags())
  }

  function BatchSchema(): Schema {
    [Opt(1, Num(Fixed64)), Opt(2, Num(Int32)), Rep(3, Msg(MessageSchema()))]
  }

  // ---- Structs to field values -------------------------------------------------------

  function Ints(o: Option<int>): seq<Val> {
    if o.Some? then [N(o.value)] else []
  }

  function Bools(o: Option<bool>): seq<Val> {
    if o.Some? then [N(if o.value then 1 else 0)] else []
  }

  function Strs(o: Option<seq<byte>>): seq<Val> {
    if o.Some? then [B(o.value)] else []
  }

  function VersionFields(v: QueueVersion): Message {
    [Ints(v.major), Ints(v.minor)]
  }

  function Versions(o: Option<QueueVersion>): seq<Val> {
    if o.Some? then [M(VersionFields(o.value))] else []
  }

  function PositionFields(p: Position): Message {
    [Ints(p.timestamp), Ints(p.value)]
  }

  function Positions(o: Option<Position>): seq<Val> {
    if o.Some? then [M(PositionFields(o.value))] else []
  }

  function CapabilityFields(c: DeviceCapabilities): Message {
    [Ints(c.minAudioQuality), Ints(c.maxAudioQuality), Ints(c.volumeRemoteControl)]
  }

  function DeviceInfoFields(d: DeviceInfo): Message {
    [Strs(d.deviceUuid), Strs(d.friendlyName), Strs(d.brand), Strs(d.model), Strs(d.serialNumber),
     Ints(d.deviceType), if d.capabilities.Some? then [M(CapabilityFields(d.capabilities.value))] else [],
     Strs(d.softwareVersion)]
  }

  function DeviceInfos(o: Option<DeviceInfo>): seq<Val> {
    if o.Some? then [M(DeviceInfoFields(o.value))] else []
  }

  function RendererStateFields(s: RendererState): Message {
    [Ints(s.playingState), Ints(s.bufferState), Positions(s.currentPosition), Ints(s.duration),
     Ints(s.currentQueueIndex), Ints(s.nextQueueItemId)]
  }

  function QueueRendererStateFields(s: QueueRendererState): Message {
    [Ints(s.playingState), Ints(s.bufferState), Positions(s.currentPosition), Ints(s.duration),
     Versions(s.queueVersion), Ints(s.currentQueueItemId), Ints(s.nextQueueItemId)]
  }

  function TrackFields(t: QueueTrackRef): Message {
    [[N(t.queueItemId)], Ints(t.trackId), Strs(t.contextUuid)]
  }

  function Track(o: Option<QueueTrackRef>): seq<Val> {
    if o.Some? then [M(TrackFields(o.value))] else []
  }

  function Tracks(ts: seq<QueueTrackRef>): seq<Val> {
    seq(|ts|, i requires 0 <= i < |ts| => M(TrackFields(ts[i])))
  }

  function Indexes(xs: seq<uint32>): seq<Val> {
    seq(|xs|, i requires 0 <= i < |xs| => N(xs[i]))
  }

  function BodyValues(b: Body): Message {
    match b
    case StateUpdatedBody(state) =>
      [if state.Some? then [M(QueueRendererStateFields(state.value))] else []]
    case VolumeChangedBody(volume) => [Ints(volume)]
    case FileAudioQualityBody(rate) => [Ints(rate)]
    case MaxAudioQualityBody(quality) => [Ints(quality)]
    case VolumeMutedBody(muted) => [Bools(muted)]
    case SetStateBody(s) =>
      [Ints(s.playingState), Ints(s.currentPosition), Versions(s.queueVersion),
       Track(s.currentQueueItem), Track(s.nextQueueItem)]
    case SetVolumeBody(s) => [Ints(s.volume), Ints(s.volumeDelta)]
    case SetActiveBody(s) => [Bools(s.active)]
    case JoinSessionBody(uuid, info) => [Strs(uuid), DeviceInfos(info)]
    case SetActiveRendererBody(id) => [Ints(id)]
    case AskForQueueStateBody(version, uuid) => [Versions(version), Strs(uuid)]
    case AskForRendererStateBody(id) => [Ints(id)]
    case SessionStateBody(s) =>
      [Strs(s.sessionUuid), Ints(s.sessionId), Versions(s.queueVersion), Ints(s.trackIndex), Bools(s.unknown)]
    case RendererStateUpdatedBody(u) =>
      [Ints(u.rendererId), Ints(u.messageId),
       if u.state.Some? then [M(RendererStateFields(u.state.value))] else []]
    case AddRendererBody(a) => [Ints(a.rendererId), DeviceInfos(a.renderer)]
    case RemoveRendererBody(id) => [Ints(id)]
    case QueueStateBody(q) =>
      [Versions(q.queueVersion), Strs(q.actionUuid), Tracks(q.tracks), Bools(q.shuffleMode),
       Indexes(q.shuffledTrackIndexes),
       Bools(q.autoplayMode), Bools(q.autoplayLoading), Tracks(q.autoplayTracks), Strs(q.queueHash)]
    case LoopModeSetBody(mode) => [Ints(mode)]
    case OtherBody(fields) => fields
  }

  // The body struct that belongs under each tag.
  predicate BodyFits(tag: nat, b: Body) {
    match b
    case StateUpdatedBody(_) => tag == STATE_UPDATED
    case VolumeChangedBody(_) => tag == VOLUME_CHANGED
    case FileAudioQualityBody(_) => tag == FILE_AUDIO_QUALITY_CHANGED
    case MaxAudioQualityBody(_) => tag == MAX_AUDIO_QUALITY_CHANGED
    case VolumeMutedBody(_) => tag == VOLUME_MUTED
    case SetStateBody(_) => tag == SET_STATE
    case SetVolumeBody(_) => tag == SET_VOLUME
    case SetActiveBody(_) => tag == SET_ACTIVE
    case JoinSessionBody(_, _) => tag == JOIN_SESSION
    case SetActiveRendererBody(_) => tag == SET_ACTIVE_RENDERER
    case AskForQueueStateBody(_, _) => tag == ASK_FOR_QUEUE_STATE
    case AskForRendererStateBody(_) => tag == ASK_FOR_RENDERER_STATE
    case SessionStateBody(_) => tag == SESSION_STATE
    case RendererStateUpdatedBody(_) => tag == RENDERER_STATE_UPDATED
    case AddRendererBody(_) => tag == ADD_RENDERER
    case RemoveRendererBody(_) => tag == REMOVE_RENDERER
    case QueueStateBody(_) => tag == QUEUE_STATE
    case LoopModeSetBody(_) => tag == LOOP_MODE_SET
    case OtherBody(fields) => OtherBodySchema(tag).Some? && Typed(OtherBodySchema(tag).value, fields)
  }

  // A message as the generated struct can hold it: every body under its own tag.
  ghost predicate ValidMessage(m: QConnectMessage) {
    forall tag :: tag in m.bodies ==> BodyFits(tag, m.bodies[tag])
  }

  function MessageFields(m: QConnectMessage): Message {
    [Ints(m.messageType)] + BodyVals(m.bodies, BodyTags())
  }

  function BodyVals(bodies: map<nat, Body>, tags: seq<nat>): (vs: Message)
    ensures |vs| == |tags|
  {
    seq(|tags|, i requires 0 <= i < |tags| =>
      if tags[i] in bodies then [M(BodyValues(bodies[tags[i]]))] else [])
  }

  function BatchFields(b: QConnectBatch): Message {
    [Ints(b.messagesTime), Ints(b.messagesId),
     seq(|b.messages|, i requires 0 <= i < |b.messages| => M(MessageFields(b.messages[i])))]
  }

  function PayloadFields(p: Payload): Message {
    [Ints(p.msgId), Ints(p.msgDate), Ints(p.proto), Strs(p.src),
     seq(|p.dests|, i requires 0 <= i < |p.dests| => B(p.dests[i])), Strs(p.payload)]
  }

  // ---- Field values to structs --------------------------------------------------------

  function Slot(m: Message, i: nat): seq<Val> {
    if i < |m| then m[i] else []
  }

  function GetInt32(vs: seq<Val>): Option<int32> {
    if vs != [] && vs[0].N? && InRange(Int32, vs[0].n) then Some(vs[0].n) else None
  }

  function GetUint32(vs: seq<Val>): Option<uint32> {
    if vs != [] && vs[0].N? && InRange(Uint32, vs[0].n) then Some(vs[0].n) else None
  }

  function GetUint64(vs: seq<Val>): Option<uint64> {
    if vs != [] && vs[0].N? && InRange(Uint64, vs[0].n) then Some(vs[0].n) else None
  }

  function GetBool(vs: seq<Val>): Option<bool> {
    if vs != [] && vs[0].N? then Some(vs[0].n != 0) else None
  }

  function GetBytes(vs: seq<Val>): Option<seq<byte>> {
    if vs != [] && vs[0].B? then Some(vs[0].bytes) else None
  }

  function GetMsg(vs: seq<Val>): Option<Message> {
    if vs != [] && vs[0].M? then Some(vs[0].msg) else None
  }

  function ToVersion(vs: seq<Val>): Option<QueueVersion> {
    match GetMsg(vs) case None => None
    case Some(m) => Some(QueueVersion(GetUint64(Slot(m, 0)), GetInt32(Slot(m, 1))))
  }

  function ToPosition(vs: seq<Val>): Option<Position> {
    match GetMsg(vs) case None => None
    case Some(m) => Some(Position(GetUint64(Slot(m, 0)), GetUint32(Slot(m, 1))))
  }

  function ToCapabilities(vs: seq<Val>): Option<DeviceCapabilities> {
    match GetMsg(vs) case None => None
    case Some(m) =>
      Some(DeviceCapabilities(GetInt32(Slot(m, 0)), GetInt32(Slot(m, 1)), GetInt32(Slot(m, 2))))
  }

  function ToDeviceInfo(vs: seq<Val>): Option<DeviceInfo> {
    match GetMsg(vs) case None => None
    case Some(m) =>
      Some(DeviceInfo(
        GetBytes(Slot(m, 0)), GetBytes(Slot(m, 1)), GetBytes(Slot(m, 2)), GetBytes(Slot(m, 3)),
        GetBytes(Slot(m, 4)), GetInt32(Slot(m, 5)), ToCapabilities(Slot(m, 6)), GetBytes(Slot(m, 7))))
  }

  function ToRendererState(vs: seq<Val>): Option<RendererState> {
    match GetMsg(vs) case None => None
    case Some(m) =>
      Some(RendererState(
        GetInt32(Slot(m, 0)), GetInt32(Slot(m, 1)), ToPosition(Slot(m, 2)), GetUint32(Slot(m, 3)),
        GetUint32(Slot(m, 4)), GetInt32(Slot(m, 5))))
  }

  function ToQueueRendererState(m: Message): QueueRendererState {
    QueueRendererState(
      GetInt32(Slot(m, 0)), GetInt32(Slot(m, 1)), ToPosition(Slot(m, 2)), GetUint32(Slot(m, 3)),
      ToVersion(Slot(m, 4)), GetInt32(Slot(m, 5)), GetInt32(Slot(m, 6)))
  }

  function ToTrack(v: Val): QueueTrackRef {
    var m := if v.M? then v.msg else [];
    QueueTrackRef(GetUint64(Slot(m, 0)).GetOr(0), GetUint32(Slot(m, 1)), GetBytes(Slot(m, 2)))
  }

  function ToTrackOption(vs: seq<Val>): Option<QueueTrackRef> {
    if vs != [] then Some(ToTrack(vs[0])) else None
  }

  function ToTracks(vs: seq<Val>): seq<QueueTrackRef> {
    seq(|vs|, i requires 0 <= i < |vs| => ToTrack(vs[i]))
  }

  function ToIndexes(vs: seq<Val>): seq<uint32> {
    seq(|vs|, i requires 0 <= i < |vs| => GetUint32([vs[i]]).GetOr(0))
  }

  function ToBody(tag: nat, m: Message): Body {
    match tag
    case 23 =>
      StateUpdatedBody(match GetMsg(Slot(m, 0)) case None => None case Some(s) => Some(ToQueueRendererState(s)))
    case 25 => VolumeChangedBody(GetUint32(Slot(m, 0)))
    case 26 => FileAudioQualityBody(GetInt32(Slot(m, 0)))
    case 28 => MaxAudioQualityBody(GetInt32(Slot(m, 0)))
    case 29 => VolumeMutedBody(GetBool(Slot(m, 0)))
    case 41 => SetStateBody(SetState(
      GetInt32(Slot(m, 0)), GetUint32(Slot(m, 1)), ToVersion(Slot(m, 2)),
      ToTrackOption(Slot(m, 3)), ToTrackOption(Slot(m, 4))))
    case 42 => SetVolumeBody(SetVolume(GetUint32(Slot(m, 0)), GetInt32(Slot(m, 1))))
    case 43 => SetActiveBody(SetActive(GetBool(Slot(m, 0))))
    case 61 => JoinSessionBody(GetBytes(Slot(m, 0)), ToDeviceInfo(Slot(m, 1)))
    case 63 => SetActiveRendererBody(GetInt32(Slot(m, 0)))
    case 76 => AskForQueueStateBody(ToVersion(Slot(m, 0)), GetBytes(Slot(m, 1)))
    case 77 => AskForRendererStateBody(GetUint64(Slot(m, 0)))
    case 81 => SessionStateBody(SessionState(
      GetBytes(Slot(m, 0)), GetUint64(Slot(m, 1)), ToVersion(Slot(m, 2)), GetUint32(Slot(m, 3)),
      GetBool(Slot(m, 4))))
    case 82 => RendererStateUpdatedBody(RendererStateUpdated(
      GetUint64(Slot(m, 0)), GetUint64(Slot(m, 1)), ToRendererState(Slot(m, 2))))
    case 83 => AddRendererBody(AddRenderer(GetUint64(Slot(m, 0)), ToDeviceInfo(Slot(m, 1))))
    case 85 => RemoveRendererBody(GetUint64(Slot(m, 0)))
    case 90 => QueueStateBody(QueueState(
      ToVersion(Slot(m, 0)), GetBytes(Slot(m, 1)), ToTracks(Slot(m, 2)), GetBool(Slot(m, 3)),
      ToIndexes(Slot(m, 4)), GetBool(Slot(m, 5)), GetBool(Slot(m, 6)), ToTracks(Slot(m, 7)),
      GetBytes(Slot(m, 8))))
    case 97 => LoopModeSetBody(GetInt32(Slot(m, 0)))
    case _ => OtherBody(m)
  }

  // The bodies found in the slots that belong to `tags`.
  function ToBodies(tags: seq<nat>, m: Message): map<nat, Body>
    requires |tags| == |m|
  {
    if tags == [] then map[]
    else
      var rest := ToBodies(tags[..|tags| - 1], m[..|m| - 1]);
      match GetMsg(m[|m| - 1])
      case None => rest
      case Some(b) => rest[tags[|tags| - 1] := ToBody(tags[|tags| - 1], b)]
  }

  function ToMessage(m: Message): QConnectMessage
    requires |m| == |BodyTags()| + 1
  {
    QConnectMessage(GetInt32(m[0]), ToBodies(BodyTags(), m[1..]))
  }

  function ToMessages(vs: seq<Val>): (r: seq<QConnectMessage>)
    requires forall i :: 0 <= i < |vs| ==> vs[i].M? && |vs[i].msg| == |BodyTags()| + 1
    ensures |r| == |vs|
  {
    seq(|vs|, i requires 0 <= i < |vs| => ToMessage(vs[i].msg))
  }

  function ToPayload(m: Message): Payload {
    Payload(
      GetUint32(Slot(m, 0)), GetUint64(Slot(m, 1)), GetUint32(Slot(m, 2)), GetBytes(Slot(m, 3)),
      seq(|Slot(m, 4)|, i requires 0 <= i < |Slot(m, 4)| => GetBytes([Slot(m, 4)[i]]).GetOr([])),
      GetBytes(Slot(m, 5)))
  }
}
