// The session runner as a step machine: one step an input, and a log of everything it
// does.
module Runner {
  import opened Basics
  import opened Messages
  import opened Transport
  import opened Events

  datatype Config = Config(sessionId: string, deviceUuid: Uuid, autoActivate: bool, apiJwt: Option<string>)

  // What `select!` delivers, each with the answer the user will give if the step asks
  // for one. A step awaits its answer inline, so an input is one atomic step.
  datatype Input =
    | ServerMessage(m: QConnectMessage, answer: Answer)
    | StreamFailed(error: string)
    | StreamEnded
    | Tick(answer: Answer)
    | UserCommand(command: SessionCommand)
    | CommandsClosed

  // The log: events to the user, messages handed to the writer, the socket closed.
  datatype Output = Emitted(event: Event) | Sent(m: QConnectMessage, ok: bool) | SocketClosed

  // The runner's fields; `writes` counts the frames its writer has handed over.
  datatype State = State(
    rendererId: uint64, isActive: bool, sessionId: Option<uint64>, sessionUuid: Option<Uuid>, writes: nat)

  const INITIAL := State(0, false, None, None, 0)

  datatype Outcome = Outcome(st: State, out: seq<Output>, exit: bool)

  // ---- Bodies of the handled messages -----------------------------------------------

  function TypeOf(m: QConnectMessage): int {
    m.messageType.GetOr(0)
  }

  // The renderer id an AddRenderer message announces, when it is about this device.
  function OwnRenderer(cfg: Config, m: QConnectMessage): Option<uint64> {
    if ADD_RENDERER in m.bodies && m.bodies[ADD_RENDERER].AddRendererBody? then
      var add := m.bodies[ADD_RENDERER].add;
      if add.renderer.Some? && add.renderer.value.deviceUuid == Some(cfg.deviceUuid)
      then Some(add.rendererId.GetOr(0)) else None
    else None
  }

  function RemovedRenderer(m: QConnectMessage): Option<uint64> {
    if REMOVE_RENDERER in m.bodies && m.bodies[REMOVE_RENDERER].RemoveRendererBody?
    then Some(m.bodies[REMOVE_RENDERER].removed.GetOr(0)) else None
  }

  function SessionStateOf(m: QConnectMessage): Option<SessionState> {
    if SESSION_STATE in m.bodies && m.bodies[SESSION_STATE].SessionStateBody?
    then Some(m.bodies[SESSION_STATE].sessionState) else None
  }

  // The session uuid, when it is 16 bytes long.
  function UuidOf(ss: SessionState): Option<Uuid> {
    if ss.sessionUuid.Some? && |ss.sessionUuid.value| == 16 then Some(ss.sessionUuid.value) else None
  }

  function UpdatedOf(m: QConnectMessage): Option<RendererStateUpdated> {
    if RENDERER_STATE_UPDATED in m.bodies && m.bodies[RENDERER_STATE_UPDATED].RendererStateUpdatedBody?
    then Some(m.bodies[RENDERER_STATE_UPDATED].updated) else None
  }

  function SetStateOf(m: QConnectMessage): Option<SetState> {
    if SET_STATE in m.bodies && m.bodies[SET_STATE].SetStateBody?
    then Some(m.bodies[SET_STATE].setState) else None
  }

  function SetVolumeOf(m: QConnectMessage): Option<SetVolume> {
    if SET_VOLUME in m.bodies && m.bodies[SET_VOLUME].SetVolumeBody?
    then Some(m.bodies[SET_VOLUME].setVolume) else None
  }

  function SetActiveOf(m: QConnectMessage): Option<SetActive> {
    if SET_ACTIVE in m.bodies && m.bodies[SET_ACTIVE].SetActiveBody?
    then Some(m.bodies[SET_ACTIVE].setActive) else None
  }

  // Does a SetState ask for anything?
  predicate RequestsChange(ss: SetState) {
    ss.playingState.Some? || ss.currentPosition.Some? || ss.currentQueueItem.Some?
  }

  // ---- Messages to the server -----------------------------------------------------------

  function Single(tag: int32, body: Body): (m: QConnectMessage)
    requires tag >= 0
    ensures BodyFits(tag, body) ==> ValidMessage(m)
  {
    QConnectMessage(Some(tag), map[tag := body])
  }

  function StateMessage(s: QueueRendererState): QConnectMessage {
    Single(STATE_UPDATED, StateUpdatedBody(Some(s)))
  }

  function VolumeMessage(volume: uint32): QConnectMessage {
    Single(VOLUME_CHANGED, VolumeChangedBody(Some(volume)))
  }

  // Not muted is an absent value.
  function MutedMessage(muted: bool): QConnectMessage {
    Single(VOLUME_MUTED, VolumeMutedBody(if muted then Some(true) else None))
  }

  function MaxQualityMessage(quality: int32): QConnectMessage {
    Single(MAX_AUDIO_QUALITY_CHANGED, MaxAudioQualityBody(Some(quality)))
  }

  function FileQualityMessage(sampleRate: uint32): QConnectMessage {
    Single(FILE_AUDIO_QUALITY_CHANGED, FileAudioQualityBody(Some(AsInt32(sampleRate))))
  }

  function AskQueueMessage(uuid: Uuid): QConnectMessage {
    Single(ASK_FOR_QUEUE_STATE, AskForQueueStateBody(None, Some(uuid)))
  }

  function AskRendererMessage(sessionId: uint64): QConnectMessage {
    Single(ASK_FOR_RENDERER_STATE, AskForRendererStateBody(Some(sessionId)))
  }

  function SetActiveRendererMessage(rendererId: uint64): QConnectMessage {
    Single(SET_ACTIVE_RENDERER, SetActiveRendererBody(Some(AsInt32(rendererId))))
  }

  function CommandMessage(c: SessionCommand): QConnectMessage {
    match c
    case ReportState(s) => StateMessage(s)
    case ReportVolume(v) => VolumeMessage(v)
    case ReportVolumeMuted(muted) => MutedMessage(muted)
    case ReportMaxAudioQuality(q) => MaxQualityMessage(q)
    case ReportFileAudioQuality(rate) => FileQualityMessage(rate)
    case QueueCommand(op, fields) => Single(QueueTag(op), OtherBody(fields))
  }

  // ---- Steps --------------------------------------------------------------------------

  // The log entries of writing `ms` one after the other, none skipped.
  function Writes(net: Network, from: nat, ms: seq<QConnectMessage>): (out: seq<Output>)
    ensures |out| == |ms|
    decreases |ms|
  {
    if ms == [] then [] else [Sent(ms[0], net(from).ok)] + Writes(net, from + 1, ms[1..])
  }

  // The handshake stops after the first write that fails.
  function Handshake(net: Network, from: nat, a: ActivationState): seq<QConnectMessage> {
    if !net(from).ok then [MutedMessage(a.muted)]
    else if !net(from + 1).ok then [MutedMessage(a.muted), VolumeMessage(a.volume)]
    else [MutedMessage(a.muted), VolumeMessage(a.volume), MaxQualityMessage(a.maxQuality)]
  }

  function Dispatch(m: QConnectMessage): seq<Output> {
    match DispatchNotification(m)
    case None => []
    case Some(n) => [Emitted(Note(n))]
  }

  function Stay(net: Network, st: State, before: seq<Output>, ms: seq<QConnectMessage>, after: seq<Output>): Outcome {
    Outcome(st.(writes := st.writes + |ms|), before + Writes(net, st.writes, ms) + after, false)
  }

  function OnAddRenderer(cfg: Config, net: Network, st: State, m: QConnectMessage): Outcome {
    match OwnRenderer(cfg, m)
    case None => Stay(net, st, [], [], Dispatch(m))
    case Some(rid) =>
      var registered := [Emitted(Note(DeviceRegistered(cfg.deviceUuid, rid, cfg.apiJwt)))];
      var st' := st.(rendererId := rid);
      if !cfg.autoActivate then Stay(net, st', registered, [], Dispatch(m))
      else
        // A failed write leaves the handler early, before the notification.
        Stay(net, st', registered, [SetActiveRendererMessage(rid)],
             if net(st.writes).ok then Dispatch(m) else [])
  }

  function OnRemoveRenderer(net: Network, st: State, m: QConnectMessage): Outcome {
    var gone := RemovedRenderer(m) == Some(st.rendererId);
    Stay(net, if gone then st.(rendererId := 0) else st, [], [], Dispatch(m))
  }

  function OnSessionState(net: Network, st: State, m: QConnectMessage): Outcome {
    match SessionStateOf(m)
    case None => Stay(net, st, [], [], Dispatch(m))
    case Some(ss) =>
      var id := ss.sessionId.GetOr(0);
      var uuid := if UuidOf(ss).Some? then UuidOf(ss) else st.sessionUuid;
      Stay(net, st.(sessionId := Some(id), sessionUuid := uuid), [], [AskRendererMessage(id)], Dispatch(m))
  }

  function OnRendererStateUpdated(net: Network, st: State, m: QConnectMessage): Outcome {
    match UpdatedOf(m)
    case None => Stay(net, st, [], [], [])
    case Some(u) =>
      var n := if u.rendererId.GetOr(0) != st.rendererId && !st.isActive
               then RestoreState(u) else Backed(RENDERER_STATE_UPDATED, RendererStateUpdatedBody(u));
      Stay(net, st, [Emitted(Note(n))], [], [])
  }

  function OnSetState(net: Network, st: State, m: QConnectMessage, answer: Answer): Outcome {
    match SetStateOf(m)
    case None => Stay(net, st, [], [], [])
    case Some(ss) =>
      if !RequestsChange(ss) then Stay(net, st, [], [], [])
      else
        Stay(net, st, [Emitted(Ask(AskSetState(ss)))],
             if answer.StateAnswer? then [StateMessage(answer.state)] else [], [])
  }

  function OnSetVolume(net: Network, st: State, m: QConnectMessage, answer: Answer): Outcome {
    match SetVolumeOf(m)
    case None => Stay(net, st, [], [], [])
    case Some(sv) =>
      Stay(net, st, [Emitted(Ask(AskSetVolume(sv)))],
           if answer.VolumeAnswer? then [VolumeMessage(answer.volume.GetOr(0))] else [], [])
  }

  function OnSetActive(cfg: Config, net: Network, st: State, m: QConnectMessage, answer: Answer): Outcome {
    match SetActiveOf(m)
    case None => Stay(net, st, [], [], [])
    case Some(sa) =>
      if sa.active.GetOr(false) then
        var hello := if answer.ActivationAnswer? then Handshake(net, st.writes, answer.activation) else [];
        Stay(net, st.(isActive := true), [Emitted(Ask(AskSetActive(sa)))],
             hello + [AskQueueMessage(st.sessionUuid.GetOr(cfg.deviceUuid))], [])
      else
        var st' := st.(isActive := false);
        if !cfg.autoActivate then Stay(net, st', [Emitted(Note(Deactivated))], [], [])
        else
          Outcome(st', [Emitted(Note(Deactivated)), SocketClosed,
                        Emitted(Note(Disconnected(cfg.sessionId, Some("Server set inactive"))))], true)
  }

  function OnMessage(cfg: Config, net: Network, st: State, m: QConnectMessage, answer: Answer): Outcome {
    var t := TypeOf(m);
    if t == ADD_RENDERER then OnAddRenderer(cfg, net, st, m)
    else if t == REMOVE_RENDERER then OnRemoveRenderer(net, st, m)
    else if t == SESSION_STATE then OnSessionState(net, st, m)
    else if t == RENDERER_STATE_UPDATED then OnRendererStateUpdated(net, st, m)
    else if t == SET_STATE then OnSetState(net, st, m, answer)
    else if t == SET_VOLUME then OnSetVolume(net, st, m, answer)
    else if t == SET_ACTIVE then OnSetActive(cfg, net, st, m, answer)
    else Stay(net, st, [], [], Dispatch(m))
  }

  function OnTick(net: Network, st: State, answer: Answer): Outcome {
    if st.isActive && st.rendererId != 0 then
      Stay(net, st, [Emitted(Ask(AskHeartbeat))],
           if answer.HeartbeatAnswer? && answer.beat.Some? then [StateMessage(answer.beat.value)] else [], [])
    else Stay(net, st, [], [], [])
  }

  function Step(cfg: Config, net: Network, st: State, input: Input): Outcome {
    match input
    case ServerMessage(m, answer) => OnMessage(cfg, net, st, m, answer)
    case StreamFailed(e) =>
      Outcome(st, [Emitted(Note(Disconnected(cfg.sessionId, Some(e))))], true)
    case StreamEnded =>
      Outcome(st, [Emitted(Note(Disconnected(cfg.sessionId, None)))], true)
    case Tick(answer) => OnTick(net, st, answer)
    case UserCommand(c) => Stay(net, st, [], [CommandMessage(c)], [])
    case CommandsClosed => Stay(net, st, [], [], [])
  }

  // ---- Runs ---------------------------------------------------------------------------

  // The loop over a schedule of inputs. `exit` says it was left, in which case the
  // rest of the schedule is not looked at and SessionClosed is the last event.
  function Run(cfg: Config, net: Network, st: State, inputs: seq<Input>): Outcome
    decreases |inputs|
  {
    if inputs == [] then Outcome(st, [], false)
    else
      var first := Step(cfg, net, st, inputs[0]);
      if first.exit then
        Outcome(first.st, first.out + [Emitted(Note(SessionClosed(cfg.deviceUuid)))], true)
      else
        var rest := Run(cfg, net, first.st, inputs[1..]);
        Outcome(rest.st, first.out + rest.out, rest.exit)
  }

  // A whole session as the user sees it, from the Connected event `spawn_session` sends.
  function Session(cfg: Config, net: Network, inputs: seq<Input>): Outcome {
    var run := Run(cfg, net, INITIAL, inputs);
    Outcome(run.st, [Emitted(Note(Connected))] + run.out, run.exit)
  }

  // The messages handed to the writer, failed writes included.
  function SentIn(out: seq<Output>): seq<QConnectMessage>
    decreases |out|
  {
    if out == [] then []
    else (if out[0].Sent? then [out[0].m] else []) + SentIn(out[1..])
  }

  lemma {:induction false} SentInAppend(a: seq<Output>, b: seq<Output>)
    ensures SentIn(a + b) == SentIn(a) + SentIn(b)
    decreases |a|
  {
    if a == [] {
      assert a + b == b;
    } else {
      assert (a + b)[0] == a[0] && (a + b)[1..] == a[1..] + b;
      SentInAppend(a[1..], b);
      var first := if a[0].Sent? then [a[0].m] else [];
      assert first + (SentIn(a[1..]) + SentIn(b)) == (first + SentIn(a[1..])) + SentIn(b);
    }
  }

  // The events given to the user.
  function EventsIn(out: seq<Output>): seq<Event>
    decreases |out|
  {
    if out == [] then []
    else (if out[0].Emitted? then [out[0].event] else []) + EventsIn(out[1..])
  }

  lemma {:induction false} EventsInAppend(a: seq<Output>, b: seq<Output>)
    ensures EventsIn(a + b) == EventsIn(a) + EventsIn(b)
    decreases |a|
  {
    if a == [] {
      assert a + b == b;
    } else {
      assert (a + b)[0] == a[0] && (a + b)[1..] == a[1..] + b;
      EventsInAppend(a[1..], b);
      var first := if a[0].Emitted? then [a[0].event] else [];
      assert first + (EventsIn(a[1..]) + EventsIn(b)) == (first + EventsIn(a[1..])) + EventsIn(b);
    }
  }

  lemma {:induction false} WritesProjected(net: Network, from: nat, ms: seq<QConnectMessage>)
    ensures SentIn(Writes(net, from, ms)) == ms && EventsIn(Writes(net, from, ms)) == []
    decreases |ms|
  {
    if ms != [] {
      WritesProjected(net, from + 1, ms[1..]);
    }
  }

  // The two projections of a step that writes `ms` between two lots of events.
  lemma StayProjected(net: Network, st: State, before: seq<Output>, ms: seq<QConnectMessage>, after: seq<Output>)
    ensures var o := Stay(net, st, before, ms, after);
      && SentIn(o.out) == SentIn(before) + ms + SentIn(after)
      && EventsIn(o.out) == EventsIn(before) + EventsIn(after)
  {
    hide SentIn, EventsIn, Writes;
    var ws := Writes(net, st.writes, ms);
    WritesProjected(net, st.writes, ms);
    SentInAppend(before + ws, after);
    SentInAppend(before, ws);
    EventsInAppend(before + ws, after);
    EventsInAppend(before, ws);
  }
}
