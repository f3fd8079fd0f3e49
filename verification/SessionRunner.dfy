// The runner as the class that keeps its state in fields, refining the steps of
// module Runner.
module SessionRunner {
  import opened Basics
  import opened Messages
  import opened Transport
  import TransportTheorems
  import opened Events
  import opened Runner

  // `Result<bool>` of the message handler: leave the loop, go on, or a failed write.
  datatype Handled = Exit | Continue | WriteFailed

  ghost predicate ValidInput(input: Input) {
    input.UserCommand? ==> ValidCommand(input.command)
  }

  class SessionRunner {
    const cfg: Config
    const writer: ConnectionWriter
    var rendererId: uint64
    var isActive: bool
    var sessionId: Option<uint64>
    var sessionUuid: Option<Uuid>
    var log: seq<Output>  // what the event channel and the writer have been given

    // The writer has framed exactly the messages in the log.
    ghost predicate Valid()
      reads this, writer
    {
      writer.Valid() && writer.sent == SentIn(log)
    }

    ghost function St(): State
      reads this
    {
      State(rendererId, isActive, sessionId, sessionUuid, |SentIn(log)|)
    }

    constructor (cfg: Config, writer: ConnectionWriter)
      requires writer.Valid() && writer.sent == []
      ensures Valid() && this.cfg == cfg && this.writer == writer
      ensures St() == INITIAL && log == [Emitted(Note(Connected))]
    {
      this.cfg := cfg;
      this.writer := writer;
      rendererId := 0;
      isActive := false;
      sessionId := None;
      sessionUuid := None;
      log := [Emitted(Note(Connected))];
    }

    method Emit(e: Event)
      requires Valid()
      modifies this`log
      ensures Valid() && log == old(log) + [Emitted(e)]
      ensures SentIn(log) == SentIn(old(log))
    {
      hide ConnectionWriter.Valid;
      SentInAppend(log, [Emitted(e)]);
      log := log + [Emitted(e)];
    }

    method Write(m: QConnectMessage) returns (ok: bool)
      requires Valid() && ValidMessage(m)
      modifies this`log, writer
      ensures Valid() && log == old(log) + [Sent(m, ok)]
      ensures ok == writer.net(|SentIn(old(log))|).ok
      ensures SentIn(log) == SentIn(old(log)) + [m]
    {
      hide ConnectionWriter.Valid;
      ok := writer.Send(m);
      SentInAppend(log, [Sent(m, ok)]);
      log := log + [Sent(m, ok)];
    }

    method EmitDispatched(m: QConnectMessage)
      requires Valid()
      modifies this`log
      ensures Valid() && log == old(log) + Dispatch(m)
      ensures SentIn(log) == SentIn(old(log))
    {
      hide ConnectionWriter.Valid, SentIn;
      var n := DispatchNotification(m);
      if n.Some? {
        Emit(Note(n.value));
      }
    }

    method SendRendererState(s: QueueRendererState) returns (ok: bool)
      requires Valid()
      modifies this`log, writer
      ensures Valid() && log == old(log) + [Sent(StateMessage(s), ok)]
      ensures ok == writer.net(|SentIn(old(log))|).ok
      ensures SentIn(log) == SentIn(old(log)) + [StateMessage(s)]
    {
      hide ConnectionWriter.Valid, SentIn;
      ok := Write(Single(STATE_UPDATED, StateUpdatedBody(Some(s))));
    }

    method DoReportVolume(volume: uint32) returns (ok: bool)
      requires Valid()
      modifies this`log, writer
      ensures Valid() && log == old(log) + [Sent(VolumeMessage(volume), ok)]
      ensures ok == writer.net(|SentIn(old(log))|).ok
      ensures SentIn(log) == SentIn(old(log)) + [VolumeMessage(volume)]
    {
      hide ConnectionWriter.Valid, SentIn;
      ok := Write(Single(VOLUME_CHANGED, VolumeChangedBody(Some(volume))));
    }

    method DoReportVolumeMuted(muted: bool) returns (ok: bool)
      requires Valid()
      modifies this`log, writer
      ensures Valid() && log == old(log) + [Sent(MutedMessage(muted), ok)]
      ensures ok == writer.net(|SentIn(old(log))|).ok
      ensures SentIn(log) == SentIn(old(log)) + [MutedMessage(muted)]
    {
      hide ConnectionWriter.Valid, SentIn;
      ok := Write(Single(VOLUME_MUTED, VolumeMutedBody(if muted then Some(true) else None)));
    }

    method DoReportMaxAudioQuality(quality: int32) returns (ok: bool)
      requires Valid()
      modifies this`log, writer
      ensures Valid() && log == old(log) + [Sent(MaxQualityMessage(quality), ok)]
      ensures ok == writer.net(|SentIn(old(log))|).ok
      ensures SentIn(log) == SentIn(old(log)) + [MaxQualityMessage(quality)]
    {
      hide ConnectionWriter.Valid, SentIn;
      ok := Write(Single(MAX_AUDIO_QUALITY_CHANGED, MaxAudioQualityBody(Some(quality))));
    }

    method DoReportFileAudioQuality(sampleRate: uint32) returns (ok: bool)
      requires Valid()
      modifies this`log, writer
      ensures Valid() && log == old(log) + [Sent(FileQualityMessage(sampleRate), ok)]
      ensures ok == writer.net(|SentIn(old(log))|).ok
      ensures SentIn(log) == SentIn(old(log)) + [FileQualityMessage(sampleRate)]
    {
      hide ConnectionWriter.Valid, SentIn;
      ok := Write(Single(FILE_AUDIO_QUALITY_CHANGED, FileAudioQualityBody(Some(AsInt32(sampleRate)))));
    }

    method DoRequestQueueState() returns (ok: bool)
      requires Valid()
      modifies this`log, writer
      ensures Valid() && log == old(log) + [Sent(AskQueueMessage(sessionUuid.GetOr(cfg.deviceUuid)), ok)]
      ensures ok == writer.net(|SentIn(old(log))|).ok
      ensures SentIn(log) == SentIn(old(log)) + [AskQueueMessage(sessionUuid.GetOr(cfg.deviceUuid))]
    {
      hide ConnectionWriter.Valid, SentIn;
      var uuid := if sessionUuid.Some? then sessionUuid.value else cfg.deviceUuid;
      ok := Write(Single(ASK_FOR_QUEUE_STATE, AskForQueueStateBody(None, Some(uuid))));
    }

    method DoRequestRendererState() returns (ok: bool)
      requires Valid()
      modifies this`log, writer
      ensures Valid() && log == old(log) + [Sent(AskRendererMessage(sessionId.GetOr(0)), ok)]
      ensures ok == writer.net(|SentIn(old(log))|).ok
      ensures SentIn(log) == SentIn(old(log)) + [AskRendererMessage(sessionId.GetOr(0))]
    {
      hide ConnectionWriter.Valid, SentIn;
      var id := if sessionId.Some? then sessionId.value else 0;
      ok := Write(Single(ASK_FOR_RENDERER_STATE, AskForRendererStateBody(Some(id))));
    }

    // Muted, volume, max quality, up to the first write that fails.
    method SendActivationHandshake(a: ActivationState) returns (ok: bool)
      requires Valid()
      modifies this`log, writer
      ensures Valid()
      ensures var from := |SentIn(old(log))|; var ms := Handshake(writer.net, from, a);
        log == old(log) + Writes(writer.net, from, ms) && SentIn(log) == SentIn(old(log)) + ms
    {
      hide ConnectionWriter.Valid, SentIn, MutedMessage, VolumeMessage, MaxQualityMessage;
      ghost var from := |SentIn(log)|;
      ok := DoReportVolumeMuted(a.muted);
      if !ok {
        return;
      }
      ok := DoReportVolume(a.volume);
      if !ok {
        WritesTwo(writer.net, from, MutedMessage(a.muted), VolumeMessage(a.volume));
        return;
      }
      ok := DoReportMaxAudioQuality(a.maxQuality);
      WritesThree(writer.net, from, MutedMessage(a.muted), VolumeMessage(a.volume), MaxQualityMessage(a.maxQuality));
    }

    method HandleAddRenderer(m: QConnectMessage) returns (r: Handled)
      requires Valid()
      modifies this, writer
      ensures Valid() && Did(OnAddRenderer(cfg, writer.net, old(St()), m), r, old(log))
    {
      hide ConnectionWriter.Valid, SentIn, Dispatch, OwnRenderer;
      r := Continue;
      var rid := OwnRenderer(cfg, m);
      if rid.Some? {
        rendererId := rid.value;
        Emit(Note(DeviceRegistered(cfg.deviceUuid, rid.value, cfg.apiJwt)));
        if cfg.autoActivate {
          var ok := Write(Single(SET_ACTIVE_RENDERER, SetActiveRendererBody(Some(AsInt32(rid.value)))));
          if !ok {
            return WriteFailed;
          }
        }
      }
      EmitDispatched(m);
    }

    method HandleRemoveRenderer(m: QConnectMessage) returns (r: Handled)
      requires Valid()
      modifies this, writer
      ensures Valid() && Did(OnRemoveRenderer(writer.net, old(St()), m), r, old(log))
    {
      hide ConnectionWriter.Valid, SentIn, Dispatch, RemovedRenderer;
      var rid := RemovedRenderer(m);
      if rid.Some? {
        if rendererId == rid.value {
          rendererId := 0;
        }
      }
      EmitDispatched(m);
      r := Continue;
    }

    method HandleSessionState(m: QConnectMessage) returns (r: Handled)
      requires Valid()
      modifies this, writer
      ensures Valid() && Did(OnSessionState(writer.net, old(St()), m), r, old(log))
    {
      hide ConnectionWriter.Valid, SentIn, Dispatch, SessionStateOf, AskRendererMessage;
      var ss := SessionStateOf(m);
      if ss.Some? {
        sessionId := Some(ss.value.sessionId.GetOr(0));
        if ss.value.sessionUuid.Some? && |ss.value.sessionUuid.value| == 16 {
          sessionUuid := Some(ss.value.sessionUuid.value);
        }
        var _ := DoRequestRendererState();
      }
      EmitDispatched(m);
      r := Continue;
    }

    method HandleRendererStateUpdated(m: QConnectMessage) returns (r: Handled)
      requires Valid()
      modifies this, writer
      ensures Valid() && Did(OnRendererStateUpdated(writer.net, old(St()), m), r, old(log))
    {
      hide ConnectionWriter.Valid, SentIn, UpdatedOf;
      var u := UpdatedOf(m);
      if u.Some? {
        if u.value.rendererId.GetOr(0) != rendererId && !isActive {
          Emit(Note(RestoreState(u.value)));
        } else {
          Emit(Note(Backed(RENDERER_STATE_UPDATED, RendererStateUpdatedBody(u.value))));
        }
      }
      r := Continue;
    }

    method HandleSetState(m: QConnectMessage, answer: Answer) returns (r: Handled)
      requires Valid()
      modifies this, writer
      ensures Valid() && Did(OnSetState(writer.net, old(St()), m, answer), r, old(log))
    {
      hide ConnectionWriter.Valid, SentIn, SetStateOf, StateMessage;
      var ss := SetStateOf(m);
      if ss.Some? {
        if ss.value.playingState.Some? || ss.value.currentPosition.Some? || ss.value.currentQueueItem.Some? {
          Emit(Ask(AskSetState(ss.value)));
          if answer.StateAnswer? {
            var _ := SendRendererState(answer.state);
          }
        }
      }
      r := Continue;
    }

    method HandleSetVolume(m: QConnectMessage, answer: Answer) returns (r: Handled)
      requires Valid()
      modifies this, writer
      ensures Valid() && Did(OnSetVolume(writer.net, old(St()), m, answer), r, old(log))
    {
      hide ConnectionWriter.Valid, SentIn, SetVolumeOf, VolumeMessage;
      var sv := SetVolumeOf(m);
      if sv.Some? {
        Emit(Ask(AskSetVolume(sv.value)));
        if answer.VolumeAnswer? {
          var _ := DoReportVolume(answer.volume.GetOr(0));
        }
      }
      r := Continue;
    }

    method HandleSetActive(m: QConnectMessage, answer: Answer) returns (r: Handled)
      requires Valid()
      modifies this, writer
      ensures Valid() && Did(OnSetActive(cfg, writer.net, old(St()), m, answer), r, old(log))
    {
      hide ConnectionWriter.Valid, SentIn, SetActiveOf, Handshake, AskQueueMessage;
      r := Continue;
      var sa := SetActiveOf(m);
      if sa.Some? {
        if sa.value.active.GetOr(false) {
          isActive := true;
          Emit(Ask(AskSetActive(sa.value)));
          Activate(answer);
        } else {
          isActive := false;
          Emit(Note(Deactivated));
          if cfg.autoActivate {
            CloseSocket();
            Emit(Note(Disconnected(cfg.sessionId, Some("Server set inactive"))));
            return Exit;
          }
        }
      }
    }

    // The writes of an activation: the handshake if there is an answer, then always
    // the request for the queue.
    method Activate(answer: Answer)
      requires Valid()
      modifies this`log, writer
      ensures Valid()
      ensures var from := |SentIn(old(log))|;
        var hello := if answer.ActivationAnswer? then Handshake(writer.net, from, answer.activation) else [];
        var ms := hello + [AskQueueMessage(sessionUuid.GetOr(cfg.deviceUuid))];
        log == old(log) + Writes(writer.net, from, ms) && SentIn(log) == SentIn(old(log)) + ms
    {
      hide ConnectionWriter.Valid, SentIn, Handshake, AskQueueMessage;
      ghost var from := |SentIn(log)|;
      ghost var hello := if answer.ActivationAnswer? then Handshake(writer.net, from, answer.activation) else [];
      if answer.ActivationAnswer? {
        var _ := SendActivationHandshake(answer.activation);
      }
      assert log == old(log) + Writes(writer.net, from, hello);
      var _ := DoRequestQueueState();
      WritesAppend(writer.net, from, hello, AskQueueMessage(sessionUuid.GetOr(cfg.deviceUuid)));
    }

    method CloseSocket()
      requires Valid()
      modifies this`log
      ensures Valid() && log == old(log) + [SocketClosed]
      ensures SentIn(log) == SentIn(old(log))
    {
      hide ConnectionWriter.Valid;
      SentInAppend(log, [SocketClosed]);
      log := log + [SocketClosed];
    }

    method HandleMessage(m: QConnectMessage, answer: Answer) returns (r: Handled)
      requires Valid()
      modifies this, writer
      ensures Valid() && Did(OnMessage(cfg, writer.net, old(St()), m, answer), r, old(log))
    {
      hide ConnectionWriter.Valid, SentIn, Dispatch, OnAddRenderer, OnRemoveRenderer, OnSessionState,
        OnRendererStateUpdated, OnSetState, OnSetVolume, OnSetActive;
      var t := TypeOf(m);
      if t == ADD_RENDERER {
        r := HandleAddRenderer(m);
      } else if t == REMOVE_RENDERER {
        r := HandleRemoveRenderer(m);
      } else if t == SESSION_STATE {
        r := HandleSessionState(m);
      } else if t == RENDERER_STATE_UPDATED {
        r := HandleRendererStateUpdated(m);
      } else if t == SET_STATE {
        r := HandleSetState(m, answer);
      } else if t == SET_VOLUME {
        r := HandleSetVolume(m, answer);
      } else if t == SET_ACTIVE {
        r := HandleSetActive(m, answer);
      } else {
        EmitDispatched(m);
        r := Continue;
      }
    }

    method HandleCommand(c: SessionCommand) returns (ok: bool)
      requires Valid() && ValidCommand(c)
      modifies this`log, writer
      ensures Valid() && log == old(log) + [Sent(CommandMessage(c), ok)]
      ensures ok == writer.net(|SentIn(old(log))|).ok
      ensures SentIn(log) == SentIn(old(log)) + [CommandMessage(c)]
    {
      hide ConnectionWriter.Valid, SentIn, BodyFits;
      match c
      case ReportState(s) => ok := SendRendererState(s);
      case ReportVolume(v) => ok := DoReportVolume(v);
      case ReportVolumeMuted(muted) => ok := DoReportVolumeMuted(muted);
      case ReportMaxAudioQuality(q) => ok := DoReportMaxAudioQuality(q);
      case ReportFileAudioQuality(rate) => ok := DoReportFileAudioQuality(rate);
      case QueueCommand(op, fields) => ok := Write(Single(QueueTag(op), OtherBody(fields)));
    }

    method HandleTick(answer: Answer)
      requires Valid()
      modifies this, writer
      ensures Valid() && Did(OnTick(writer.net, old(St()), answer), Continue, old(log))
    {
      hide ConnectionWriter.Valid, SentIn, StateMessage;
      if isActive && rendererId != 0 {
        Emit(Ask(AskHeartbeat));
        if answer.HeartbeatAnswer? && answer.beat.Some? {
          var _ := SendRendererState(answer.beat.value);
        }
      }
    }

    // One turn of the event loop.
    method HandleInput(input: Input) returns (exit: bool)
      requires Valid() && ValidInput(input)
      modifies this, writer
      ensures Valid()
      ensures Did(Step(cfg, writer.net, old(St()), input), if exit then Exit else Continue, old(log))
    {
      hide ConnectionWriter.Valid, SentIn, OnMessage, OnTick, CommandMessage;
      exit := false;
      match input
      case ServerMessage(m, answer) =>
        var r := HandleMessage(m, answer);
        exit := r.Exit?;
      case StreamFailed(e) =>
        Emit(Note(Disconnected(cfg.sessionId, Some(e))));
        exit := true;
      case StreamEnded =>
        Emit(Note(Disconnected(cfg.sessionId, None)));
        exit := true;
      case Tick(answer) =>
        HandleTick(answer);
      case UserCommand(c) =>
        var _ := HandleCommand(c);
      case CommandsClosed =>
    }

    // The event loop over the inputs `select!` happens to deliver.
    method Run(inputs: seq<Input>) returns (exited: bool)
      requires Valid() && forall i :: 0 <= i < |inputs| ==> ValidInput(inputs[i])
      modifies this, writer
      ensures Valid()
      ensures var o := Runner.Run(cfg, writer.net, old(St()), inputs);
        St() == o.st && log == old(log) + o.out && exited == o.exit
    {
      hide ConnectionWriter.Valid, SentIn, Step, ValidInput;
      ghost var o := Runner.Run(cfg, writer.net, St(), inputs);
      exited := false;
      var i := 0;
      while i < |inputs| && !exited
        invariant Valid() && i <= |inputs|
        invariant exited ==>
          o.exit && St() == o.st && old(log) + o.out == log + [Emitted(Note(SessionClosed(cfg.deviceUuid)))]
        invariant !exited ==>
          var rest := Runner.Run(cfg, writer.net, St(), inputs[i..]);
          o.st == rest.st && old(log) + o.out == log + rest.out && o.exit == rest.exit
        decreases |inputs| - i
      {
        assert inputs[i..][0] == inputs[i] && inputs[i..][1..] == inputs[i + 1..];
        exited := HandleInput(inputs[i]);
        i := i + 1;
      }
      if exited {
        Emit(Note(SessionClosed(cfg.deviceUuid)));
      }
    }

    // The fields and the log are what outcome `o` says, from log `before`.
    ghost predicate Did(o: Outcome, r: Handled, before: seq<Output>)
      reads this
    {
      St() == o.st && log == before + o.out && (r.Exit? <==> o.exit)
    }
  }

  // What the server decodes from the runner's frames is what the log says was sent.
  lemma ServerReads(r: SessionRunner)
    requires r.Valid()
    requires forall i :: 0 <= i < |r.writer.frames| ==> TransportTheorems.Fits(r.writer.frames[i])
    ensures Stream(Deliver(r.writer.frames)) == AsItems(SentIn(r.log))
  {
    TransportTheorems.EndToEnd(r.writer.startId, r.writer.sent, r.writer.net, 0);
  }

  lemma WritesTwo(net: Network, from: nat, a: QConnectMessage, b: QConnectMessage)
    ensures Writes(net, from, [a, b]) == [Sent(a, net(from).ok), Sent(b, net(from + 1).ok)]
  {
    assert [a, b][1..] == [b];
  }

  lemma WritesThree(net: Network, from: nat, a: QConnectMessage, b: QConnectMessage, c: QConnectMessage)
    ensures Writes(net, from, [a, b, c])
         == [Sent(a, net(from).ok), Sent(b, net(from + 1).ok), Sent(c, net(from + 2).ok)]
  {
    assert [a, b, c][1..] == [b, c];
    WritesTwo(net, from + 1, b, c);
  }

  lemma {:induction false} WritesAppend(net: Network, from: nat, ms: seq<QConnectMessage>, m: QConnectMessage)
    ensures Writes(net, from, ms + [m]) == Writes(net, from, ms) + [Sent(m, net(from + |ms|).ok)]
    decreases |ms|
  {
    if ms != [] {
      assert (ms + [m])[1..] == ms[1..] + [m];
      WritesAppend(net, from + 1, ms[1..], m);
    }
  }
}
