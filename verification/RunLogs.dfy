// What one input sends and which events it emits, as two tables, and a session's whole
// output told with them.
module RunLogs {
  import opened Basics
  import opened Messages
  import Transport
  import opened Events
  import opened Readings
  import opened Runner
  import opened RunHistory

  // ---- One input ----------------------------------------------------------------------

  // The notification a message is turned into.
  function NoticeEvents(input: Input): seq<Event> {
    if Notice(input) == [] then [] else [Note(Backed(Notice(input)[0].0, Notice(input)[0].1))]
  }

  // Is this a message that makes the runner claim to be the active renderer?
  predicate Claims(cfg: Config, input: Input) {
    cfg.autoActivate && Announced(cfg, input).Some?
  }

  // The messages one input sends.
  function StepSent(cfg: Config, net: Transport.Network, st: State, input: Input): seq<QConnectMessage> {
    match input
    case ServerMessage(m, answer) =>
      if Claims(cfg, input) then [ActiveClaim(Announced(cfg, input).value)]
      else if SessionIdIn(input).Some? then [RendererQuestion(SessionIdIn(input).value)]
      else if Requested(input).Some? && answer.StateAnswer? then [StateReport(answer.state)]
      else if VolumeAsked(input).Some? && answer.VolumeAnswer? then
        [VolumeReport(if answer.volume.Some? then answer.volume.value else 0)]
      else if ActiveFlag(input) == Some(true) then
        (if answer.ActivationAnswer? then Hello(net, st.writes, answer.activation) else [])
        + [QueueQuestion(if st.sessionUuid.Some? then st.sessionUuid.value else cfg.deviceUuid)]
      else []
    case Tick(answer) =>
      if st.isActive && st.rendererId != 0 && answer.HeartbeatAnswer? && answer.beat.Some?
      then [StateReport(answer.beat.value)] else []
    case UserCommand(c) => [CommandReport(c)]
    case _ => []
  }

  // The events one input emits.
  function StepEvents(cfg: Config, net: Transport.Network, st: State, input: Input): seq<Event> {
    match input
    case ServerMessage(m, answer) =>
      if Announced(cfg, input).Some? then
        [Note(DeviceRegistered(cfg.deviceUuid, Announced(cfg, input).value, cfg.apiJwt))]
        + (if Claims(cfg, input) && !net(st.writes).ok then [] else NoticeEvents(input))
      else if UpdatedIn(input).Some? then
        var u := UpdatedIn(input).value;
        if UpdatedId(u) != st.rendererId && !st.isActive then [Note(RestoreState(u))]
        else [Note(Backed(82, RendererStateUpdatedBody(u)))]
      else if Requested(input).Some? then [Ask(AskSetState(Requested(input).value))]
      else if VolumeAsked(input).Some? then [Ask(AskSetVolume(VolumeAsked(input).value))]
      else if ActiveFlag(input).Some? then
        if ActiveFlag(input).value then [Ask(AskSetActive(SetActiveIn(input)))]
        else if cfg.autoActivate then
          [Note(Deactivated), Note(Disconnected(cfg.sessionId, Some("Server set inactive")))]
        else [Note(Deactivated)]
      else NoticeEvents(input)
    case StreamFailed(e) => [Note(Disconnected(cfg.sessionId, Some(e)))]
    case StreamEnded => [Note(Disconnected(cfg.sessionId, None))]
    case Tick(_) => if st.isActive && st.rendererId != 0 then [Ask(AskHeartbeat)] else []
    case _ => []
  }

  lemma DispatchProjected(input: Input)
    requires input.ServerMessage? && TypeOf(input.m) != RENDERER_STATE_UPDATED
    ensures SentIn(Dispatch(input.m)) == [] && EventsIn(Dispatch(input.m)) == NoticeEvents(input)
  {
    hide Notice, DispatchNotification;
    NoticedAlike(input);
  }

  // `out` is some events, then some writes, then some events.
  lemma OneEvent(e: Event)
    ensures SentIn([Emitted(e)]) == [] && EventsIn([Emitted(e)]) == [e]
    ensures SentIn([]) == [] && EventsIn([]) == []
  {
  }

  lemma AddRendererProjected(cfg: Config, net: Transport.Network, st: State, m: QConnectMessage, answer: Answer)
    requires TypeOf(m) == ADD_RENDERER
    ensures var input := ServerMessage(m, answer); var out := OnAddRenderer(cfg, net, st, m).out;
      SentIn(out) == StepSent(cfg, net, st, input) && EventsIn(out) == StepEvents(cfg, net, st, input)
  {
    hide SentIn, EventsIn, Stay, Dispatch, NoticeEvents, SetActiveRendererMessage, ActiveClaim, Announced, OwnRenderer,
      SessionIn, UpdatedIn, Requested, VolumeAsked, ActiveFlag, RequestsChange;
    var input := ServerMessage(m, answer);
    ReadAlike(cfg, input);
    ReadAlikeRequests(input);
    NoSession(input);
    DispatchProjected(input);
    OneEvent(Note(Connected));
    match OwnRenderer(cfg, m)
    case None => StayProjected(net, st, [], [], Dispatch(m));
    case Some(rid) =>
      var e := Note(DeviceRegistered(cfg.deviceUuid, rid, cfg.apiJwt));
      OneEvent(e);
      ClaimAlike(rid);
      var st' := st.(rendererId := rid);
      StayProjected(net, st', [Emitted(e)], [], Dispatch(m));
      StayProjected(net, st', [Emitted(e)], [SetActiveRendererMessage(rid)], Dispatch(m));
      StayProjected(net, st', [Emitted(e)], [SetActiveRendererMessage(rid)], []);
  }

  lemma NoSession(input: Input)
    requires SessionIn(input).None?
    ensures SessionIdIn(input).None?
  {
  }

  lemma SetActiveProjected(cfg: Config, net: Transport.Network, st: State, m: QConnectMessage, answer: Answer)
    requires TypeOf(m) == SET_ACTIVE
    ensures var input := ServerMessage(m, answer); var out := OnSetActive(cfg, net, st, m, answer).out;
      SentIn(out) == StepSent(cfg, net, st, input) && EventsIn(out) == StepEvents(cfg, net, st, input)
  {
    hide SentIn, EventsIn, Stay, Handshake, Hello, AskQueueMessage, QueueQuestion, Announced, Removed, SessionIn,
      UpdatedIn, Requested, VolumeAsked, ActiveFlag, SetActiveIn, SetActiveOf, Notice, RequestsChange;
    var input := ServerMessage(m, answer);
    ReadAlike(cfg, input);
    ReadAlikeRequests(input);
    NoSession(input);
    OneEvent(Note(Deactivated));
    StayProjected(net, st, [], [], []);
    if SetActiveOf(m).Some? {
      var sa := SetActiveOf(m).value;
      if sa.active.GetOr(false) {
        OneEvent(Ask(AskSetActive(sa)));
        QuestionAlike(st.sessionUuid.GetOr(cfg.deviceUuid));
        if answer.ActivationAnswer? {
          HelloAlike(net, st.writes, answer.activation);
        }
        StayProjected(net, st.(isActive := true), [Emitted(Ask(AskSetActive(sa)))],
          StepSent(cfg, net, st, input), []);
      } else {
        StayProjected(net, st.(isActive := false), [Emitted(Note(Deactivated))], [], []);
        LeavingProjected(cfg);
      }
    } else {
      NotNoticed(input);
    }
  }

  lemma QuestionAlike(uuid: Uuid)
    ensures QueueQuestion(uuid) == AskQueueMessage(uuid)
  {
  }

  // Messages to the renderer are not notified.
  lemma NotNoticed(input: Input)
    requires input.ServerMessage? && TypeOf(input.m) in {SET_STATE, SET_VOLUME, SET_ACTIVE}
    ensures NoticeEvents(input) == []
  {
  }

  lemma NotNoticedUpdate(input: Input)
    requires input.ServerMessage? && TypeOf(input.m) == RENDERER_STATE_UPDATED && UpdatedIn(input).None?
    ensures NoticeEvents(input) == []
  {
  }

  lemma LeavingProjected(cfg: Config)
    ensures var gone := Note(Disconnected(cfg.sessionId, Some("Server set inactive")));
      var out := [Emitted(Note(Deactivated)), SocketClosed, Emitted(gone)];
      SentIn(out) == [] && EventsIn(out) == [Note(Deactivated), gone]
  {
    var gone := Note(Disconnected(cfg.sessionId, Some("Server set inactive")));
    var out := [Emitted(Note(Deactivated)), SocketClosed, Emitted(gone)];
    assert out[1..] == [SocketClosed, Emitted(gone)];
    assert out[1..][1..] == [Emitted(gone)];
    OneEvent(gone);
  }

  lemma OtherProjected(cfg: Config, net: Transport.Network, st: State, m: QConnectMessage, answer: Answer)
    requires TypeOf(m) != ADD_RENDERER && TypeOf(m) != SET_ACTIVE
    ensures var input := ServerMessage(m, answer); var out := OnMessage(cfg, net, st, m, answer).out;
      SentIn(out) == StepSent(cfg, net, st, input) && EventsIn(out) == StepEvents(cfg, net, st, input)
  {
    hide SentIn, EventsIn, Stay, Dispatch, NoticeEvents, StateMessage, VolumeMessage, AskRendererMessage, Announced,
      Removed, SessionIn, UpdatedIn, Requested, VolumeAsked, ActiveFlag, RequestsChange, StateReport, VolumeReport,
      SessionStateOf, UpdatedOf, SetStateOf, SetVolumeOf, RemovedRenderer, OnSessionState;
    var input := ServerMessage(m, answer);
    ReadAlike(cfg, input);
    ReadAlikeRequests(input);
    OneEvent(Note(Connected));
    var t := TypeOf(m);
    if t == SESSION_STATE {
      SessionStateProjected(net, st, input);
    } else if t == RENDERER_STATE_UPDATED {
      NoSession(input);
      UpdateProjected(cfg, net, st, input);
    } else if t == SET_STATE || t == SET_VOLUME {
      NoSession(input);
      NotNoticed(input);
      ReportsAlike(answer);
      var events := StepEvents(cfg, net, st, input);
      if events == [] {
        StayProjected(net, st, [], [], []);
      } else {
        OneEvent(events[0]);
        StayProjected(net, st, [Emitted(events[0])], StepSent(cfg, net, st, input), []);
      }
    } else {
      NoSession(input);
      DispatchProjected(input);
      StayProjected(net, OnRemoveRenderer(net, st, m).st, [], [], Dispatch(m));
      StayProjected(net, st, [], [], Dispatch(m));
      StayProjected(net, st.(rendererId := 0), [], [], Dispatch(m));
    }
  }

  lemma ReportsAlike(answer: Answer)
    ensures answer.StateAnswer? ==> StateReport(answer.state) == StateMessage(answer.state)
    ensures answer.VolumeAnswer? ==>
      VolumeReport(if answer.volume.Some? then answer.volume.value else 0) == VolumeMessage(answer.volume.GetOr(0))
    ensures answer.HeartbeatAnswer? && answer.beat.Some? ==>
      StateReport(answer.beat.value) == StateMessage(answer.beat.value)
  {
  }

  lemma UpdateProjected(cfg: Config, net: Transport.Network, st: State, input: Input)
    requires input.ServerMessage? && TypeOf(input.m) == RENDERER_STATE_UPDATED
    requires UpdatedIn(input) == UpdatedOf(input.m) && Announced(cfg, input).None? && SessionIdIn(input).None?
    requires Requested(input).None? && VolumeAsked(input).None? && ActiveFlag(input).None?
    ensures var out := OnRendererStateUpdated(net, st, input.m).out;
      SentIn(out) == StepSent(cfg, net, st, input) && EventsIn(out) == StepEvents(cfg, net, st, input)
  {
    hide SentIn, EventsIn, Stay, UpdatedIn, UpdatedOf, Announced, SessionIdIn, Requested, VolumeAsked, ActiveFlag,
      NoticeEvents;
    if UpdatedOf(input.m).None? {
      NotNoticedUpdate(input);
      OneEvent(Note(Connected));
      StayProjected(net, st, [], [], []);
    } else {
      var events := StepEvents(cfg, net, st, input);
      OneEvent(events[0]);
      StayProjected(net, st, [Emitted(events[0])], [], []);
    }
  }

  lemma SessionStateProjected(net: Transport.Network, st: State, input: Input)
    requires input.ServerMessage? && TypeOf(input.m) == SESSION_STATE && SessionIn(input) == SessionStateOf(input.m)
    ensures var out := OnSessionState(net, st, input.m).out;
      && SentIn(out) == (if SessionIdIn(input).Some? then [RendererQuestion(SessionIdIn(input).value)] else [])
      && EventsIn(out) == NoticeEvents(input)
  {
    hide SentIn, EventsIn, Stay, Dispatch, NoticeEvents, AskRendererMessage, RendererQuestion, SessionIn, SessionIdIn,
      UuidOf, SessionStateOf;
    var m := input.m;
    DispatchProjected(input);
    OneEvent(Note(Connected));
    match SessionStateOf(m)
    case None =>
      NoSession(input);
      StayProjected(net, st, [], [], Dispatch(m));
    case Some(ss) =>
      ReadAlikeSession(ss, input);
      var id := ss.sessionId.GetOr(0);
      RendererQuestionAlike(id);
      var uuid := if UuidOf(ss).Some? then UuidOf(ss) else st.sessionUuid;
      StayProjected(net, st.(sessionId := Some(id), sessionUuid := uuid), [], [AskRendererMessage(id)], Dispatch(m));
  }

  lemma RendererQuestionAlike(id: uint64)
    ensures RendererQuestion(id) == AskRendererMessage(id)
  {
  }

  // Each input sends and emits exactly what the two tables say.
  lemma StepProjected(cfg: Config, net: Transport.Network, st: State, input: Input)
    ensures SentIn(Step(cfg, net, st, input).out) == StepSent(cfg, net, st, input)
    ensures EventsIn(Step(cfg, net, st, input).out) == StepEvents(cfg, net, st, input)
  {
    hide SentIn, EventsIn, Stay, OnAddRenderer, OnSetActive, OnRemoveRenderer, OnSessionState,
      OnRendererStateUpdated, OnSetState, OnSetVolume, Dispatch, CommandMessage, StateMessage, CommandReport,
      StateReport;
    OneEvent(Note(Connected));
    match input
    case ServerMessage(m, answer) =>
      hide StepSent, StepEvents;
      if TypeOf(m) == ADD_RENDERER {
        AddRendererProjected(cfg, net, st, m, answer);
      } else if TypeOf(m) == SET_ACTIVE {
        SetActiveProjected(cfg, net, st, m, answer);
      } else {
        OtherProjected(cfg, net, st, m, answer);
      }
    case StreamFailed(e) => OneEvent(Note(Disconnected(cfg.sessionId, Some(e))));
    case StreamEnded => OneEvent(Note(Disconnected(cfg.sessionId, None)));
    case Tick(answer) =>
      ReportsAlike(answer);
      OneEvent(Ask(AskHeartbeat));
      StayProjected(net, st, [], [], []);
      StayProjected(net, st, [Emitted(Ask(AskHeartbeat))], StepSent(cfg, net, st, input), []);
    case UserCommand(c) =>
      CommandAlike(c);
      StayProjected(net, st, [], [CommandMessage(c)], []);
    case CommandsClosed => StayProjected(net, st, [], [], []);
  }

  // ---- Whole logs: the messages sent and the events, input by input -------------------------

  function SentUpTo(cfg: Config, net: Transport.Network, inputs: seq<Input>, n: nat): seq<QConnectMessage>
    requires n <= |inputs|
  {
    if n == 0 then []
    else SentUpTo(cfg, net, inputs, n - 1) + StepSent(cfg, net, At(cfg, net, inputs, n - 1), inputs[n - 1])
  }

  function EventsUpTo(cfg: Config, net: Transport.Network, inputs: seq<Input>, n: nat): seq<Event>
    requires n <= |inputs|
  {
    if n == 0 then []
    else EventsUpTo(cfg, net, inputs, n - 1) + StepEvents(cfg, net, At(cfg, net, inputs, n - 1), inputs[n - 1])
  }

  lemma {:induction false} LogProjected(cfg: Config, net: Transport.Network, inputs: seq<Input>, n: nat)
    requires n <= |inputs|
    ensures SentIn(LogUpTo(cfg, net, inputs, n)) == SentUpTo(cfg, net, inputs, n)
    ensures EventsIn(LogUpTo(cfg, net, inputs, n)) == EventsUpTo(cfg, net, inputs, n)
  {
    hide SentIn, EventsIn, Step, StepSent, StepEvents, At;
    if n == 0 {
      OneEvent(Note(Connected));
    } else {
      LogProjected(cfg, net, inputs, n - 1);
      var block := Block(cfg, net, inputs, n - 1);
      StepProjected(cfg, net, At(cfg, net, inputs, n - 1), inputs[n - 1]);
      SentInAppend(LogUpTo(cfg, net, inputs, n - 1), block.out);
      EventsInAppend(LogUpTo(cfg, net, inputs, n - 1), block.out);
    }
  }

  // The messages and the events of a session.
  lemma SessionProjected(cfg: Config, net: Transport.Network, inputs: seq<Input>)
    ensures var n := Handled(cfg, net, inputs); var o := Session(cfg, net, inputs);
      && SentIn(o.out) == SentUpTo(cfg, net, inputs, n)
      && EventsIn(o.out) == [Note(Connected)] + EventsUpTo(cfg, net, inputs, n)
           + (if o.exit then [Note(SessionClosed(cfg.deviceUuid))] else [])
      && o.exit == Exited(cfg, net, inputs, n) && (!o.exit ==> n == |inputs|)
  {
    hide SentIn, EventsIn, SentUpTo, EventsUpTo, LogUpTo, Step, HandledFrom, Run, At;
    var n := Handled(cfg, net, inputs);
    var o := Run(cfg, net, INITIAL, inputs);
    RunIsItsBlocks(cfg, net, inputs);
    LogProjected(cfg, net, inputs, n);
    var closing := if o.exit then [Emitted(Note(SessionClosed(cfg.deviceUuid)))] else [];
    OneEvent(Note(SessionClosed(cfg.deviceUuid)));
    OneEvent(Note(Connected));
    SentInAppend(LogUpTo(cfg, net, inputs, n), closing);
    EventsInAppend(LogUpTo(cfg, net, inputs, n), closing);
    SentInAppend([Emitted(Note(Connected))], o.out);
    EventsInAppend([Emitted(Note(Connected))], o.out);
  }
}
