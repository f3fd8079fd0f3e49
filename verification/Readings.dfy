// What the messages of a session say, field by field: the numbers and fields of the
// protocol written out. The laws of runs are stated with these readings, apart from the
// functions the runner itself takes messages apart with.
module Readings {
  import opened Basics
  import opened Messages
  import opened Events
  import opened Runner
  import Transport
  import Wire

  // ---- Messages received ----------------------------------------------------------------

  // A message of type `t` with its body of the same number.
  predicate Carries(input: Input, t: int) {
    input.ServerMessage? && input.m.messageType == Some(t) && t in input.m.bodies
  }

  // AddRenderer: the id it announces, if the renderer it describes is this device.
  function Announced(cfg: Config, input: Input): Option<uint64> {
    if Carries(input, 83) && input.m.bodies[83].AddRendererBody? then
      var add := input.m.bodies[83].add;
      if add.renderer.Some? && add.renderer.value.deviceUuid == Some(cfg.deviceUuid)
      then Some(if add.rendererId.Some? then add.rendererId.value else 0) else None
    else None
  }

  // RemoveRenderer: the id it names.
  function Removed(input: Input): Option<uint64> {
    if Carries(input, 85) && input.m.bodies[85].RemoveRendererBody? then
      Some(if input.m.bodies[85].removed.Some? then input.m.bodies[85].removed.value else 0)
    else None
  }

  // SetActive: its flag, absent meaning false.
  function ActiveFlag(input: Input): Option<bool> {
    if Carries(input, 43) && input.m.bodies[43].SetActiveBody?
    then Some(input.m.bodies[43].setActive.active == Some(true)) else None
  }

  function SessionIn(input: Input): Option<SessionState> {
    if Carries(input, 81) && input.m.bodies[81].SessionStateBody?
    then Some(input.m.bodies[81].sessionState) else None
  }

  // SessionState: its uuid, if it has one of 16 bytes.
  function UuidIn(input: Input): Option<Uuid> {
    match SessionIn(input)
    case None => None
    case Some(ss) =>
      if ss.sessionUuid.Some? && |ss.sessionUuid.value| == 16 then Some(ss.sessionUuid.value) else None
  }

  function SessionIdIn(input: Input): Option<uint64> {
    match SessionIn(input)
    case None => None
    case Some(ss) => Some(if ss.sessionId.Some? then ss.sessionId.value else 0)
  }

  // RendererStateUpdated: its body.
  function UpdatedIn(input: Input): Option<RendererStateUpdated> {
    if Carries(input, 82) && input.m.bodies[82].RendererStateUpdatedBody?
    then Some(input.m.bodies[82].updated) else None
  }

  function UpdatedId(u: RendererStateUpdated): uint64 {
    if u.rendererId.Some? then u.rendererId.value else 0
  }

  // SetState: its body, if it asks for a state, a position or a queue item.
  function Requested(input: Input): Option<SetState> {
    if Carries(input, 41) && input.m.bodies[41].SetStateBody? then
      var ss := input.m.bodies[41].setState;
      if ss.playingState.None? && ss.currentPosition.None? && ss.currentQueueItem.None? then None else Some(ss)
    else None
  }

  function VolumeAsked(input: Input): Option<SetVolume> {
    if Carries(input, 42) && input.m.bodies[42].SetVolumeBody? then Some(input.m.bodies[42].setVolume) else None
  }

  function SetActiveIn(input: Input): SetActive
    requires ActiveFlag(input).Some?
  {
    input.m.bodies[43].setActive
  }

  // The message types that are notified: each with the body of its own number.
  const NOTIFIED: set<int> := {
    81, 82, 83, 84, 85, 86, 87, 88, 89, 90, 91, 92, 93, 94, 95, 96, 97, 98, 99, 100, 101, 102, 103, 105}

  // The notification a message carries, told by type and body.
  function Notice(input: Input): seq<(int, Body)> {
    if input.ServerMessage? && input.m.messageType.Some? then
      var t := input.m.messageType.value;
      if t in NOTIFIED && t in input.m.bodies && (t == 82 ==> input.m.bodies[82].RendererStateUpdatedBody?)
      then [(t, input.m.bodies[t])] else []
    else []
  }

  // ---- Messages sent ----------------------------------------------------------------------

  // A message of type `t` with that body and no other.
  function Carrying(t: int32, body: Body): QConnectMessage
    requires t >= 0
  {
    QConnectMessage(Some(t), map[t := body])
  }

  function StateReport(s: QueueRendererState): QConnectMessage {
    Carrying(23, StateUpdatedBody(Some(s)))
  }

  function VolumeReport(volume: uint32): QConnectMessage {
    Carrying(25, VolumeChangedBody(Some(volume)))
  }

  function FileQualityReport(sampleRate: uint32): QConnectMessage {
    Carrying(26, FileAudioQualityBody(
      Some(if sampleRate < 0x8000_0000 then sampleRate else sampleRate - 0x1_0000_0000)))
  }

  function MaxQualityReport(quality: int32): QConnectMessage {
    Carrying(28, MaxAudioQualityBody(Some(quality)))
  }

  // Muted is true, not muted is absent.
  function MutedReport(muted: bool): QConnectMessage {
    Carrying(29, VolumeMutedBody(if muted then Some(true) else None))
  }

  // The claim to be the active renderer: the low 32 bits of the id.
  function ActiveClaim(rendererId: uint64): QConnectMessage {
    var low := rendererId % 0x1_0000_0000;
    Carrying(63, SetActiveRendererBody(Some(if low < 0x8000_0000 then low else low - 0x1_0000_0000)))
  }

  function QueueQuestion(uuid: Uuid): QConnectMessage {
    Carrying(76, AskForQueueStateBody(None, Some(uuid)))
  }

  function RendererQuestion(sessionId: uint64): QConnectMessage {
    Carrying(77, AskForRendererStateBody(Some(sessionId)))
  }

  function CommandReport(c: SessionCommand): QConnectMessage {
    match c
    case ReportState(s) => StateReport(s)
    case ReportVolume(v) => VolumeReport(v)
    case ReportVolumeMuted(muted) => MutedReport(muted)
    case ReportMaxAudioQuality(q) => MaxQualityReport(q)
    case ReportFileAudioQuality(rate) => FileQualityReport(rate)
    case QueueCommand(ClearQueue, fields) => Carrying(65, OtherBody(fields))
    case QueueCommand(LoadTracks, fields) => Carrying(66, OtherBody(fields))
    case QueueCommand(InsertTracks, fields) => Carrying(67, OtherBody(fields))
    case QueueCommand(AddTracks, fields) => Carrying(68, OtherBody(fields))
    case QueueCommand(RemoveTracks, fields) => Carrying(69, OtherBody(fields))
    case QueueCommand(ReorderTracks, fields) => Carrying(70, OtherBody(fields))
  }

  // The handshake of an activation whose first message is write number `from`: the
  // messages up to and including the first that cannot be written.
  function Hello(net: Transport.Network, from: nat, a: ActivationState): seq<QConnectMessage> {
    [MutedReport(a.muted)]
    + (if !net(from).ok then []
       else [VolumeReport(a.volume)] + if !net(from + 1).ok then [] else [MaxQualityReport(a.maxQuality)])
  }

  // ---- The runner reads and writes the same -------------------------------------------------

  lemma {:induction false} ReadAlike(cfg: Config, input: Input)
    requires input.ServerMessage?
    ensures var m := input.m; var t := TypeOf(m);
      && Announced(cfg, input) == (if t == ADD_RENDERER then OwnRenderer(cfg, m) else None)
      && Removed(input) == (if t == REMOVE_RENDERER then RemovedRenderer(m) else None)
      && SessionIn(input) == (if t == SESSION_STATE then SessionStateOf(m) else None)
      && UpdatedIn(input) == (if t == RENDERER_STATE_UPDATED then UpdatedOf(m) else None)
      && VolumeAsked(input) == (if t == SET_VOLUME then SetVolumeOf(m) else None)
  {
  }

  lemma {:induction false} ReadAlikeRequests(input: Input)
    requires input.ServerMessage?
    ensures var m := input.m; var t := TypeOf(m);
      && Requested(input)
         == (if t == SET_STATE && SetStateOf(m).Some? && RequestsChange(SetStateOf(m).value)
             then SetStateOf(m) else None)
      && (ActiveFlag(input).Some? <==> t == SET_ACTIVE && SetActiveOf(m).Some?)
      && (ActiveFlag(input).Some? ==>
            && SetActiveOf(m) == Some(SetActiveIn(input))
            && ActiveFlag(input).value == SetActiveIn(input).active.GetOr(false))
  {
  }

  lemma {:induction false} ReadAlikeSession(ss: SessionState, input: Input)
    requires SessionIn(input) == Some(ss)
    ensures UuidIn(input) == UuidOf(ss) && SessionIdIn(input) == Some(ss.sessionId.GetOr(0))
  {
  }

  // The default arm notifies the types listed, each with its own body, and no others.
  lemma {:induction false} NoticedAlike(input: Input)
    requires input.ServerMessage?
    ensures var n := DispatchNotification(input.m); var t := TypeOf(input.m);
      t != 82 ==> n == if Notice(input) == [] then None else Some(Backed(Notice(input)[0].0, Notice(input)[0].1))
  {
  }

  // The notification of a message: exactly the listed types have one, with the body of
  // the type's own number.
  lemma {:induction false} NotifiedExactly(m: QConnectMessage, n: Notification)
    ensures DispatchNotification(m) == Some(n) <==>
      && m.messageType.Some? && m.messageType.value in NOTIFIED && m.messageType.value in m.bodies
      && n == Backed(m.messageType.value, m.bodies[m.messageType.value])
  {
  }

  lemma {:induction false} WrittenAlike(
      s: QueueRendererState, v: uint32, q: int32, muted: bool, rid: uint64, uuid: Uuid)
    ensures StateReport(s) == StateMessage(s) && VolumeReport(v) == VolumeMessage(v)
    ensures MaxQualityReport(q) == MaxQualityMessage(q) && MutedReport(muted) == MutedMessage(muted)
    ensures ActiveClaim(rid) == SetActiveRendererMessage(rid)
    ensures QueueQuestion(uuid) == AskQueueMessage(uuid) && RendererQuestion(rid) == AskRendererMessage(rid)
  {
  }

  lemma {:induction false} QueueAlike(op: QueueOp, fields: Wire.Message)
    ensures CommandReport(QueueCommand(op, fields)) == CommandMessage(QueueCommand(op, fields))
  {
    match op
    case ClearQueue =>
    case LoadTracks =>
    case InsertTracks =>
    case AddTracks =>
    case RemoveTracks =>
    case ReorderTracks =>
  }

  lemma {:induction false} CommandAlike(c: SessionCommand)
    ensures CommandReport(c) == CommandMessage(c)
  {
    match c
    case QueueCommand(op, fields) => QueueAlike(op, fields);
    case _ =>
  }

  lemma {:induction false} HelloAlike(net: Transport.Network, from: nat, a: ActivationState)
    ensures Hello(net, from, a) == Handshake(net, from, a)
  {
  }
}
