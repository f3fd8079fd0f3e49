// What flows between a session and its user: notifications and commands to the user,
// answers and session commands back.
module Events {
  import opened Basics
  import Wire
  import opened Messages

  datatype Notification =
    | Backed(messageType: int, body: Body)  // one variant a notification message type
    | Deactivated
    | RestoreState(updated: RendererStateUpdated)
    | Connected
    | Disconnected(sessionId: string, reason: Option<string>)
    | DeviceRegistered(deviceUuid: Uuid, rendererId: uint64, apiJwt: Option<string>)
    | SessionClosed(deviceUuid: Uuid)

  datatype Command =
    | AskSetState(setState: SetState)
    | AskSetVolume(setVolume: SetVolume)
    | AskSetActive(setActive: SetActive)
    | AskHeartbeat

  datatype Event = Note(note: Notification) | Ask(command: Command)

  datatype ActivationState = ActivationState(
    muted: bool, volume: uint32, maxQuality: int32, playback: QueueRendererState)

  // What a command's responder brings back; `Dropped` when it is dropped unused.
  datatype Answer =
    | Dropped
    | StateAnswer(state: QueueRendererState)
    | VolumeAnswer(volume: Option<uint32>)
    | ActivationAnswer(activation: ActivationState)
    | HeartbeatAnswer(beat: Option<QueueRendererState>)

  datatype QueueOp = LoadTracks | AddTracks | InsertTracks | RemoveTracks | ReorderTracks | ClearQueue

  datatype SessionCommand =
    | ReportState(state: QueueRendererState)
    | ReportVolume(volume: uint32)
    | ReportVolumeMuted(muted: bool)
    | ReportMaxAudioQuality(quality: int32)
    | ReportFileAudioQuality(sampleRate: uint32)
    | QueueCommand(op: QueueOp, fields: Wire.Message)

  function QueueTag(op: QueueOp): nat {
    match op
    case ClearQueue => CLEAR_QUEUE
    case LoadTracks => QUEUE_LOAD_TRACKS
    case InsertTracks => QUEUE_INSERT_TRACKS
    case AddTracks => QUEUE_ADD_TRACKS
    case RemoveTracks => QUEUE_REMOVE_TRACKS
    case ReorderTracks => QUEUE_REORDER_TRACKS
  }

  // A command the user can build: a queue command carries the fields of its struct.
  ghost predicate ValidCommand(c: SessionCommand) {
    c.QueueCommand? ==> BodyFits(QueueTag(c.op), OtherBody(c.fields))
  }

  // The message types of the notification table: 81 to 105 without 104.
  predicate IsNotification(messageType: int) {
    81 <= messageType <= 105 && messageType != 104
  }

  // The notification a message stands for: each listed type takes the body field of
  // the same number, if that field is populated.
  function DispatchNotification(m: QConnectMessage): Option<Notification> {
    if m.messageType.None? then None
    else
      var t := m.messageType.value;
      if IsNotification(t) && t in m.bodies then Some(Backed(t, m.bodies[t])) else None
  }
}
