// The laws of sessions: what is reported, what is notified, and how a session ends.
module RunTheorems {
  import opened Basics
  import opened Messages
  import opened Transport
  import opened Events
  import opened Readings
  import opened Runner
  import opened RunHistory
  import opened RunLogs

  // What is collected from a session's messages is collected input by input.
  lemma SessionSent<Y>(cfg: Config, net: Network, inputs: seq<Input>, f: QConnectMessage -> seq<Y>)
    ensures Collect(SentIn(Session(cfg, net, inputs).out), f)
         == Collect(SentUpTo(cfg, net, inputs, Handled(cfg, net, inputs)), f)
  {
    hide SentIn, EventsIn, SentUpTo, EventsUpTo, HandledFrom, Session;
    SessionProjected(cfg, net, inputs);
  }

  // The same for events, apart from those that open and close it.
  lemma SessionEvents<Y>(cfg: Config, net: Network, inputs: seq<Input>, f: Event -> seq<Y>)
    requires f(Note(Connected)) == [] && f(Note(SessionClosed(cfg.deviceUuid))) == []
    ensures Collect(EventsIn(Session(cfg, net, inputs).out), f)
         == Collect(EventsUpTo(cfg, net, inputs, Handled(cfg, net, inputs)), f)
  {
    hide SentIn, EventsIn, SentUpTo, EventsUpTo, HandledFrom, Session, Collect;
    var events := EventsUpTo(cfg, net, inputs, Handled(cfg, net, inputs));
    var closing := if Session(cfg, net, inputs).exit then [Note(SessionClosed(cfg.deviceUuid))] else [];
    SessionProjected(cfg, net, inputs);
    CollectAppend([Note(Connected)] + events, closing, f);
    CollectAppend([Note(Connected)], events, f);
    CollectFew([Note(Connected)], f);
    CollectFew(closing, f);
  }

  // ---- Heartbeats -----------------------------------------------------------------------

  function Beat(e: Event): seq<Event> {
    if e == Ask(AskHeartbeat) then [e] else []
  }

  lemma StepBeats(cfg: Config, net: Network, st: State, input: Input)
    ensures |Collect(StepEvents(cfg, net, st, input), Beat)| ==
      (if input.Tick? && st.isActive && st.rendererId != 0 then 1 else 0)
  {
    hide Collect;
    CollectFew(StepEvents(cfg, net, st, input), Beat);
  }

  lemma {:induction false} BeatsUpTo(cfg: Config, net: Network, inputs: seq<Input>, n: nat)
    requires n <= |inputs|
    ensures |Collect(EventsUpTo(cfg, net, inputs, n), Beat)| == DueTicks(cfg, inputs, n)
  {
    hide StepEvents, At, Due, Collect;
    if n == 0 {
      CollectFew([], Beat);
    } else {
      BeatsUpTo(cfg, net, inputs, n - 1);
      StepBeats(cfg, net, At(cfg, net, inputs, n - 1), inputs[n - 1]);
      DueHistory(cfg, net, inputs, n - 1);
      CollectAppend(EventsUpTo(cfg, net, inputs, n - 1),
        StepEvents(cfg, net, At(cfg, net, inputs, n - 1), inputs[n - 1]), Beat);
    }
  }

  // A session asks for a heartbeat exactly once for each handled tick at which the
  // message history says active and registered.
  lemma HeartbeatsAreDueTicks(cfg: Config, net: Network, inputs: seq<Input>)
    ensures |Collect(EventsIn(Session(cfg, net, inputs).out), Beat)|
         == DueTicks(cfg, inputs, Handled(cfg, net, inputs))
  {
    SessionEvents(cfg, net, inputs, Beat);
    BeatsUpTo(cfg, net, inputs, Handled(cfg, net, inputs));
  }

  // ---- State reports ---------------------------------------------------------------------

  // The renderer state a StateUpdated message carries.
  function ReportedState(m: QConnectMessage): seq<QueueRendererState> {
    if m.messageType == Some(23) && 23 in m.bodies && m.bodies[23].StateUpdatedBody? && m.bodies[23].state.Some?
    then [m.bodies[23].state.value] else []
  }

  // The state the user has given by input `i`: the answer to a SetState, the answer to
  // a heartbeat that was due, or a report of the user's own.
  ghost function OwedState(cfg: Config, inputs: seq<Input>, i: nat): seq<QueueRendererState>
    requires i < |inputs|
  {
    match inputs[i]
    case ServerMessage(m, answer) =>
      if Requested(inputs[i]).Some? && answer.StateAnswer? then [answer.state] else []
    case Tick(answer) =>
      if Due(cfg, inputs, i) && answer.HeartbeatAnswer? && answer.beat.Some? then [answer.beat.value] else []
    case UserCommand(c) => if c.ReportState? then [c.state] else []
    case _ => []
  }

  ghost function OwedStates(cfg: Config, inputs: seq<Input>, n: nat): seq<QueueRendererState>
    requires n <= |inputs|
  {
    if n == 0 then [] else OwedStates(cfg, inputs, n - 1) + OwedState(cfg, inputs, n - 1)
  }

  lemma StepStates(cfg: Config, net: Network, inputs: seq<Input>, i: nat)
    requires i < |inputs|
    ensures Collect(StepSent(cfg, net, At(cfg, net, inputs, i), inputs[i]), ReportedState)
         == OwedState(cfg, inputs, i)
  {
    hide Collect, At, Due, Hello, Announced, SessionIdIn, Requested, VolumeAsked, ActiveFlag;
    var st := At(cfg, net, inputs, i);
    Exclusive(cfg, inputs[i]);
    CollectFew(StepSent(cfg, net, st, inputs[i]), ReportedState);
    DueHistory(cfg, net, inputs, i);
    if ActiveFlag(inputs[i]) == Some(true) {
      HelloStates(net, st.writes, inputs[i].answer,
        QueueQuestion(if st.sessionUuid.Some? then st.sessionUuid.value else cfg.deviceUuid));
    }
  }

  lemma HelloStates(net: Network, from: nat, answer: Answer, ask: QConnectMessage)
    requires ReportedState(ask) == []
    ensures var hello := if answer.ActivationAnswer? then Hello(net, from, answer.activation) else [];
      Collect(hello + [ask], ReportedState) == []
  {
    hide Collect;
    var hello := if answer.ActivationAnswer? then Hello(net, from, answer.activation) else [];
    CollectAppend(hello, [ask], ReportedState);
    CollectFew([ask], ReportedState);
    CollectFew(hello, ReportedState);
    if |hello| == 3 {
      assert hello == hello[..2] + [hello[2]];
      CollectAppend(hello[..2], [hello[2]], ReportedState);
      CollectFew(hello[..2], ReportedState);
      CollectFew([hello[2]], ReportedState);
    }
  }

  lemma {:induction false} StatesUpTo(cfg: Config, net: Network, inputs: seq<Input>, n: nat)
    requires n <= |inputs|
    ensures Collect(SentUpTo(cfg, net, inputs, n), ReportedState) == OwedStates(cfg, inputs, n)
  {
    hide StepSent, At, Collect, OwedState;
    if n == 0 {
      CollectFew([], ReportedState);
    } else {
      StatesUpTo(cfg, net, inputs, n - 1);
      StepStates(cfg, net, inputs, n - 1);
      CollectAppend(SentUpTo(cfg, net, inputs, n - 1),
        StepSent(cfg, net, At(cfg, net, inputs, n - 1), inputs[n - 1]), ReportedState);
    }
  }

  // The StateUpdated messages of a session are, in order and one for one, the states
  // its user gave: no report is lost, repeated, reordered or made up.
  lemma StateReportsConserved(cfg: Config, net: Network, inputs: seq<Input>)
    ensures Collect(SentIn(Session(cfg, net, inputs).out), ReportedState)
         == OwedStates(cfg, inputs, Handled(cfg, net, inputs))
  {
    SessionSent(cfg, net, inputs, ReportedState);
    StatesUpTo(cfg, net, inputs, Handled(cfg, net, inputs));
  }

  // ---- Writes counted -------------------------------------------------------------------

  lemma StepWrites(cfg: Config, net: Network, st: State, input: Input)
    ensures Step(cfg, net, st, input).st.writes == st.writes + |StepSent(cfg, net, st, input)|
  {
    hide OnMessage, Handshake, Writes, RequestsChange, CommandMessage, StateMessage, Hello, CommandReport;
    match input
    case ServerMessage(m, answer) => MessageWrites(cfg, net, st, m, answer);
    case _ =>
  }

  lemma {:induction false} MessageWrites(cfg: Config, net: Network, st: State, m: QConnectMessage, answer: Answer)
    ensures OnMessage(cfg, net, st, m, answer).st.writes
         == st.writes + |StepSent(cfg, net, st, ServerMessage(m, answer))|
  {
    hide Handshake, Writes, Dispatch, RequestsChange, StateMessage, VolumeMessage, AskRendererMessage,
      AskQueueMessage, SetActiveRendererMessage, OwnRenderer, RemovedRenderer, SessionStateOf, UpdatedOf,
      SetStateOf, SetVolumeOf, SetActiveOf, UuidOf, Announced, SessionIn, Requested, VolumeAsked, ActiveFlag, Hello;
    var input := ServerMessage(m, answer);
    ReadAlike(cfg, input);
    ReadAlikeRequests(input);
    if answer.ActivationAnswer? {
      HelloAlike(net, st.writes, answer.activation);
    }
  }

  // The `k`-th message sent is the `k`-th write.
  lemma {:induction false} WritesAreMessages(cfg: Config, net: Network, inputs: seq<Input>, n: nat)
    requires n <= |inputs|
    ensures At(cfg, net, inputs, n).writes == |SentUpTo(cfg, net, inputs, n)|
  {
    hide Step, StepSent;
    if n > 0 {
      WritesAreMessages(cfg, net, inputs, n - 1);
      StepWrites(cfg, net, At(cfg, net, inputs, n - 1), inputs[n - 1]);
    }
  }

  // ---- Volume reports --------------------------------------------------------------------

  function ReportedVolume(m: QConnectMessage): seq<uint32> {
    if m.messageType == Some(25) && 25 in m.bodies && m.bodies[25].VolumeChangedBody? && m.bodies[25].volume.Some?
    then [m.bodies[25].volume.value] else []
  }

  // The volume given by input `i`: the answer to a SetVolume, the volume of an
  // activation unless the mute report before it could not be written, a user report.
  function OwedVolume(cfg: Config, net: Network, inputs: seq<Input>, i: nat): seq<uint32>
    requires i < |inputs|
  {
    match inputs[i]
    case ServerMessage(m, answer) =>
      if VolumeAsked(inputs[i]).Some? && answer.VolumeAnswer? then
        [if answer.volume.Some? then answer.volume.value else 0]
      else if ActiveFlag(inputs[i]) == Some(true) && answer.ActivationAnswer?
              && net(|SentUpTo(cfg, net, inputs, i)|).ok then [answer.activation.volume]
      else []
    case UserCommand(c) => if c.ReportVolume? then [c.volume] else []
    case _ => []
  }

  function OwedVolumes(cfg: Config, net: Network, inputs: seq<Input>, n: nat): seq<uint32>
    requires n <= |inputs|
  {
    if n == 0 then [] else OwedVolumes(cfg, net, inputs, n - 1) + OwedVolume(cfg, net, inputs, n - 1)
  }

  lemma HelloVolumes(net: Network, from: nat, a: ActivationState, ask: QConnectMessage)
    requires ReportedVolume(ask) == []
    ensures Collect(Hello(net, from, a) + [ask], ReportedVolume) == (if net(from).ok then [a.volume] else [])
  {
    hide Collect;
    var hello := Hello(net, from, a);
    CollectAppend(hello, [ask], ReportedVolume);
    CollectFew([ask], ReportedVolume);
    CollectFew(hello, ReportedVolume);
    if |hello| == 3 {
      assert hello == hello[..2] + [hello[2]];
      CollectAppend(hello[..2], [hello[2]], ReportedVolume);
      CollectFew(hello[..2], ReportedVolume);
      CollectFew([hello[2]], ReportedVolume);
    }
  }

  lemma StepVolumes(cfg: Config, net: Network, inputs: seq<Input>, i: nat)
    requires i < |inputs|
    ensures Collect(StepSent(cfg, net, At(cfg, net, inputs, i), inputs[i]), ReportedVolume)
         == OwedVolume(cfg, net, inputs, i)
  {
    hide Collect, At, Hello, SentUpTo, Announced, SessionIdIn, Requested, VolumeAsked, ActiveFlag;
    Exclusive(cfg, inputs[i]);
    var st := At(cfg, net, inputs, i);
    var sent := StepSent(cfg, net, st, inputs[i]);
    WritesAreMessages(cfg, net, inputs, i);
    CollectFew(sent, ReportedVolume);
    if ActiveFlag(inputs[i]) == Some(true) {
      var ask := QueueQuestion(if st.sessionUuid.Some? then st.sessionUuid.value else cfg.deviceUuid);
      if inputs[i].answer.ActivationAnswer? {
        HelloVolumes(net, st.writes, inputs[i].answer.activation, ask);
      } else {
        assert sent == [ask];
      }
    }
  }

  lemma {:induction false} VolumesUpTo(cfg: Config, net: Network, inputs: seq<Input>, n: nat)
    requires n <= |inputs|
    ensures Collect(SentUpTo(cfg, net, inputs, n), ReportedVolume) == OwedVolumes(cfg, net, inputs, n)
  {
    hide StepSent, At, Collect, OwedVolume;
    if n == 0 {
      CollectFew([], ReportedVolume);
    } else {
      VolumesUpTo(cfg, net, inputs, n - 1);
      StepVolumes(cfg, net, inputs, n - 1);
      CollectAppend(SentUpTo(cfg, net, inputs, n - 1),
        StepSent(cfg, net, At(cfg, net, inputs, n - 1), inputs[n - 1]), ReportedVolume);
    }
  }

  // The VolumeChanged messages of a session are, in order and one for one, the volumes
  // its user gave.
  lemma VolumeReportsConserved(cfg: Config, net: Network, inputs: seq<Input>)
    ensures Collect(SentIn(Session(cfg, net, inputs).out), ReportedVolume)
         == OwedVolumes(cfg, net, inputs, Handled(cfg, net, inputs))
  {
    SessionSent(cfg, net, inputs, ReportedVolume);
    VolumesUpTo(cfg, net, inputs, Handled(cfg, net, inputs));
  }

  // ---- Activation blocks ---------------------------------------------------------------------

  lemma {:induction false} SentGrows(cfg: Config, net: Network, inputs: seq<Input>, i: nat, n: nat)
    requires i <= n <= |inputs|
    ensures SentUpTo(cfg, net, inputs, i) <= SentUpTo(cfg, net, inputs, n)
    decreases n - i
  {
    hide StepSent, At;
    if i < n {
      SentGrows(cfg, net, inputs, i, n - 1);
    }
  }

  // An activation's messages stand together in what a session sends, whatever ticks and
  // user commands are scheduled around it: the handshake, cut only after a write that
  // failed, and then always the request for the latest session's queue.
  lemma ActivationBlock(cfg: Config, net: Network, inputs: seq<Input>, i: nat)
      returns (hello: seq<QConnectMessage>, rest: seq<QConnectMessage>)
    requires i < Handled(cfg, net, inputs) && ActiveFlag(inputs[i]) == Some(true)
    ensures SentIn(Session(cfg, net, inputs).out) ==
      SentUpTo(cfg, net, inputs, i) + (hello +
        [QueueQuestion(if LatestUuid(inputs, i).Some? then LatestUuid(inputs, i).value else cfg.deviceUuid)]) + rest
    ensures !inputs[i].answer.ActivationAnswer? ==> hello == []
    ensures inputs[i].answer.ActivationAnswer? ==>
      var a := inputs[i].answer.activation; var w := |SentUpTo(cfg, net, inputs, i)|;
      && hello <= [MutedReport(a.muted), VolumeReport(a.volume), MaxQualityReport(a.maxQuality)]
      && |hello| == (if !net(w).ok then 1 else if !net(w + 1).ok then 2 else 3)
  {
    hide Session, SentIn, EventsIn, EventsUpTo, HandledFrom, At, LatestUuid, SentUpTo;
    var n := Handled(cfg, net, inputs);
    var st := At(cfg, net, inputs, i);
    SessionProjected(cfg, net, inputs);
    SentGrows(cfg, net, inputs, i + 1, n);
    WritesAreMessages(cfg, net, inputs, i);
    UuidHistory(cfg, net, inputs, i);
    SentNext(cfg, net, inputs, i);
    var whole := SentUpTo(cfg, net, inputs, n);
    rest := whole[|SentUpTo(cfg, net, inputs, i + 1)|..];
    hello := if inputs[i].answer.ActivationAnswer?
      then Hello(net, st.writes, inputs[i].answer.activation) else [];
  }

  lemma SentNext(cfg: Config, net: Network, inputs: seq<Input>, i: nat)
    requires i < |inputs|
    ensures SentUpTo(cfg, net, inputs, i + 1)
         == SentUpTo(cfg, net, inputs, i) + StepSent(cfg, net, At(cfg, net, inputs, i), inputs[i])
  {
  }

  // ---- Notifications ---------------------------------------------------------------------------

  // The message behind an event, with its message type.
  function BackedBy(e: Event): seq<(int, Body)> {
    match e
    case Note(Backed(t, body)) => [(t, body)]
    case Note(RestoreState(u)) => [(82, RendererStateUpdatedBody(u))]
    case _ => []
  }

  // Input `i` claims the active role and the claim cannot be written.
  predicate ClaimFails(cfg: Config, net: Network, inputs: seq<Input>, i: nat)
    requires i < |inputs|
  {
    Claims(cfg, inputs[i]) && !net(|SentUpTo(cfg, net, inputs, i)|).ok
  }

  // A message says one thing, and is notified accordingly.
  lemma Exclusive(cfg: Config, input: Input)
    ensures |Notice(input)| <= 1
    ensures !input.ServerMessage? ==>
      && Notice(input) == [] && Announced(cfg, input).None? && UpdatedIn(input).None? && Requested(input).None?
      && VolumeAsked(input).None? && ActiveFlag(input).None? && SessionIdIn(input).None?
    ensures UpdatedIn(input).Some? ==> Notice(input) == [(82, RendererStateUpdatedBody(UpdatedIn(input).value))]
    ensures Requested(input).Some? || VolumeAsked(input).Some? || ActiveFlag(input).Some? ==> Notice(input) == []
    ensures Announced(cfg, input).Some? ==>
      && |Notice(input)| == 1 && UpdatedIn(input).None? && Requested(input).None? && VolumeAsked(input).None?
      && ActiveFlag(input).None? && SessionIdIn(input).None?
    ensures SessionIdIn(input).Some? ==>
      Requested(input).None? && VolumeAsked(input).None? && ActiveFlag(input).None? && UpdatedIn(input).None?
    ensures Requested(input).Some? ==>
      VolumeAsked(input).None? && ActiveFlag(input).None? && UpdatedIn(input).None? && SessionIdIn(input).None?
    ensures VolumeAsked(input).Some? ==>
      Requested(input).None? && ActiveFlag(input).None? && UpdatedIn(input).None? && SessionIdIn(input).None?
    ensures ActiveFlag(input).Some? ==>
      Requested(input).None? && VolumeAsked(input).None? && UpdatedIn(input).None? && SessionIdIn(input).None?
  {
  }

  lemma StepBacked(cfg: Config, net: Network, inputs: seq<Input>, i: nat)
    requires i < |inputs|
    ensures Collect(StepEvents(cfg, net, At(cfg, net, inputs, i), inputs[i]), BackedBy)
         == if ClaimFails(cfg, net, inputs, i) then [] else Notice(inputs[i])
  {
    hide Collect, At, SentUpTo, Announced, Notice, Requested, VolumeAsked, ActiveFlag, UpdatedIn;
    Exclusive(cfg, inputs[i]);
    WritesAreMessages(cfg, net, inputs, i);
    CollectFew(StepEvents(cfg, net, At(cfg, net, inputs, i), inputs[i]), BackedBy);
  }

  function Notified(cfg: Config, net: Network, inputs: seq<Input>, n: nat): seq<(int, Body)>
    requires n <= |inputs|
  {
    if n == 0 then []
    else
      Notified(cfg, net, inputs, n - 1)
      + (if ClaimFails(cfg, net, inputs, n - 1) then [] else Notice(inputs[n - 1]))
  }

  lemma {:induction false} BackedUpTo(cfg: Config, net: Network, inputs: seq<Input>, n: nat)
    requires n <= |inputs|
    ensures Collect(EventsUpTo(cfg, net, inputs, n), BackedBy) == Notified(cfg, net, inputs, n)
  {
    hide StepEvents, At, Collect, ClaimFails, Notice;
    if n == 0 {
      CollectFew([], BackedBy);
    } else {
      BackedUpTo(cfg, net, inputs, n - 1);
      StepBacked(cfg, net, inputs, n - 1);
      CollectAppend(EventsUpTo(cfg, net, inputs, n - 1),
        StepEvents(cfg, net, At(cfg, net, inputs, n - 1), inputs[n - 1]), BackedBy);
    }
  }

  // How many notifications the first `n` inputs lost.
  function Lost(cfg: Config, net: Network, inputs: seq<Input>, n: nat): nat
    requires n <= |inputs|
  {
    if n == 0 then 0 else Lost(cfg, net, inputs, n - 1) + (if ClaimFails(cfg, net, inputs, n - 1) then 1 else 0)
  }

  lemma ClaimHasBody(cfg: Config, input: Input)
    requires Claims(cfg, input)
    ensures |Notice(input)| == 1
  {
  }

  lemma {:induction false} LostCounted(cfg: Config, net: Network, inputs: seq<Input>, n: nat)
    requires n <= |inputs|
    ensures |Notified(cfg, net, inputs, n)| + Lost(cfg, net, inputs, n) == |Collect(inputs[..n], Notice)|
    ensures Lost(cfg, net, inputs, n) == 0 ==> Notified(cfg, net, inputs, n) == Collect(inputs[..n], Notice)
    ensures Lost(cfg, net, inputs, n) == 0 <==> forall i :: 0 <= i < n ==> !ClaimFails(cfg, net, inputs, i)
  {
    hide Collect, Notice, SentUpTo, Claims;
    if n == 0 {
      CollectFew(inputs[..0], Notice);
    } else {
      LostCounted(cfg, net, inputs, n - 1);
      assert inputs[..n] == inputs[..n - 1] + [inputs[n - 1]];
      CollectAppend(inputs[..n - 1], [inputs[n - 1]], Notice);
      CollectFew([inputs[n - 1]], Notice);
      if ClaimFails(cfg, net, inputs, n - 1) {
        ClaimHasBody(cfg, inputs[n - 1]);
      }
    }
  }

  // The message-backed notifications of a session are the inbound messages, in order,
  // without loss, duplication or invention, exactly when every claim to be the active
  // renderer could be written. A failed claim loses its AddRenderer notification.
  lemma NotificationsInOrder(cfg: Config, net: Network, inputs: seq<Input>)
    ensures var n := Handled(cfg, net, inputs);
      Collect(EventsIn(Session(cfg, net, inputs).out), BackedBy) == Collect(inputs[..n], Notice)
      <==> forall i :: 0 <= i < n ==> !ClaimFails(cfg, net, inputs, i)
  {
    hide Collect, Session, EventsIn, EventsUpTo, HandledFrom, ClaimFails, Notice, Notified, Lost;
    var n := Handled(cfg, net, inputs);
    SessionEvents(cfg, net, inputs, BackedBy);
    BackedUpTo(cfg, net, inputs, n);
    LostCounted(cfg, net, inputs, n);
  }

  // The claim of an auto-activating device that cannot be written takes the notification
  // of its registration with it.
  lemma FailedClaimLosesNotification(cfg: Config, net: Network, answer: Answer)
    requires cfg.autoActivate && !net(0).ok
    ensures var body := AddRendererBody(AddRenderer(Some(7), Some(DeviceInfo(
        Some(cfg.deviceUuid), None, None, None, None, None, None, None))));
      var inputs := [ServerMessage(QConnectMessage(Some(83), map[83 := body]), answer)];
      && ClaimFails(cfg, net, inputs, 0)
      && Collect(inputs, Notice) == [(83, body)]
      && Collect(EventsIn(Session(cfg, net, inputs).out), BackedBy) == []
  {
    hide Collect, Session, EventsIn, EventsUpTo, HandledFrom, Notified;
    var body := AddRendererBody(AddRenderer(Some(7), Some(DeviceInfo(
      Some(cfg.deviceUuid), None, None, None, None, None, None, None))));
    var inputs := [ServerMessage(QConnectMessage(Some(83), map[83 := body]), answer)];
    CollectFew(inputs, Notice);
    SessionEvents(cfg, net, inputs, BackedBy);
    OneInputHandled(cfg, net, inputs);
    BackedUpTo(cfg, net, inputs, 1);
    NothingNotified(cfg, net, inputs);
  }

  lemma OneInputHandled(cfg: Config, net: Network, inputs: seq<Input>)
    requires |inputs| == 1
    ensures Handled(cfg, net, inputs) == 1
  {
  }

  lemma NothingNotified(cfg: Config, net: Network, inputs: seq<Input>)
    requires |inputs| == 1 && ClaimFails(cfg, net, inputs, 0)
    ensures Notified(cfg, net, inputs, 1) == []
  {
    hide ClaimFails;
  }

  // A renderer state broadcast becomes RestoreState exactly when the history says that
  // this device is inactive and that the state is another renderer's; else it stays a
  // RendererStateUpdated. So no RestoreState is seen while the device is active.
  lemma RestoreExactly(cfg: Config, net: Network, inputs: seq<Input>, i: nat)
    requires i < |inputs| && UpdatedIn(inputs[i]).Some?
    ensures var u := UpdatedIn(inputs[i]).value;
      var rid := UpdatedId(u);
      var events := StepEvents(cfg, net, At(cfg, net, inputs, i), inputs[i]);
      && (events == [Note(RestoreState(u))]
          || events == [Note(Backed(82, RendererStateUpdatedBody(u)))])
      && (events == [Note(RestoreState(u))] <==>
          && !ActiveBy(inputs, i)
          && (if rid != 0 then !RegisteredBy(cfg, inputs, i, rid)
              else exists id :: id != 0 && RegisteredBy(cfg, inputs, i, id)))
  {
    hide At, ActiveBy, RegisteredBy, Announced, UpdatedIn, Requested, VolumeAsked, ActiveFlag;
    Exclusive(cfg, inputs[i]);
    var u := UpdatedIn(inputs[i]).value;
    var rid := UpdatedId(u);
    var now := At(cfg, net, inputs, i).rendererId;
    ActiveHistory(cfg, net, inputs, i);
    if rid != 0 {
      RegistrationHistory(cfg, net, inputs, i, rid);
    } else {
      if now != 0 {
        RegistrationHistory(cfg, net, inputs, i, now);
      }
      if exists id :: id != 0 && RegisteredBy(cfg, inputs, i, id) {
        var id :| id != 0 && RegisteredBy(cfg, inputs, i, id);
        RegistrationHistory(cfg, net, inputs, i, id);
      }
    }
  }

  // No other input emits a RestoreState.
  lemma RestoreOnlyThere(cfg: Config, net: Network, st: State, input: Input, u: RendererStateUpdated)
    requires Note(RestoreState(u)) in StepEvents(cfg, net, st, input)
    ensures UpdatedIn(input) == Some(u)
    ensures !st.isActive
  {
  }

  // ---- How a session ends ---------------------------------------------------------------------

  predicate Edge(e: Event) {
    e.Note? && (e.note.Connected? || e.note.Disconnected? || e.note.SessionClosed?)
  }

  predicate NoEdge(events: seq<Event>) {
    forall i :: 0 <= i < |events| ==> !Edge(events[i])
  }

  predicate NoDeactivated(events: seq<Event>) {
    Note(Deactivated) !in events
  }

  lemma {:induction false} StepShape(cfg: Config, net: Network, st: State, input: Input)
    ensures var o := Step(cfg, net, st, input); var events := StepEvents(cfg, net, st, input);
      && (!o.exit ==> NoEdge(events) && (cfg.autoActivate ==> NoDeactivated(events)))
      && (o.exit ==>
           || (input == StreamEnded && events == [Note(Disconnected(cfg.sessionId, None))])
           || (input.StreamFailed? && events == [Note(Disconnected(cfg.sessionId, Some(input.error)))])
           || (cfg.autoActivate && ActiveFlag(input) == Some(false)
               && events == [Note(Deactivated), Note(Disconnected(cfg.sessionId, Some("Server set inactive")))]))
  {
    hide Step, Announced, Notice, Requested, VolumeAsked, ActiveFlag, UpdatedIn;
    ExitsExactly(cfg, net, st, input);
    Exclusive(cfg, input);
  }

  // The inputs a session ends with.
  predicate Leaves(cfg: Config, input: Input) {
    || input == StreamEnded || input.StreamFailed?
    || (cfg.autoActivate && ActiveFlag(input) == Some(false))
  }

  lemma {:induction false} ExitsExactly(cfg: Config, net: Network, st: State, input: Input)
    ensures Step(cfg, net, st, input).exit <==> Leaves(cfg, input)
  {
    hide Handshake, RequestsChange, Writes, Dispatch, ActiveFlag, OwnRenderer, SessionStateOf, SetStateOf, SetVolumeOf,
      SetActiveOf, UpdatedOf, RemovedRenderer, CommandMessage, StateMessage;
    if input.ServerMessage? {
      ReadAlikeRequests(input);
    } else {
      NotAMessage(cfg, input);
    }
  }

  lemma {:induction false} MiddleShape(cfg: Config, net: Network, inputs: seq<Input>, n: nat)
    requires n <= |inputs|
    requires forall i :: 0 <= i < n ==> !Block(cfg, net, inputs, i).exit
    ensures NoEdge(EventsUpTo(cfg, net, inputs, n))
    ensures cfg.autoActivate ==> NoDeactivated(EventsUpTo(cfg, net, inputs, n))
  {
    hide Step, StepEvents, At;
    if n > 0 {
      assert !Block(cfg, net, inputs, n - 1).exit;
      MiddleShape(cfg, net, inputs, n - 1);
      StepShape(cfg, net, At(cfg, net, inputs, n - 1), inputs[n - 1]);
    }
  }

  // Every finished session logs Connected, then neither Connected, Disconnected nor
  // SessionClosed, then exactly Disconnected and SessionClosed. With auto-activation
  // Deactivated can only come just before Disconnected, and it ends the session for
  // that reason; without it Deactivated never ends a session.
  lemma FinishedSessionShape(cfg: Config, net: Network, inputs: seq<Input>)
      returns (middle: seq<Event>, last: seq<Event>, reason: Option<string>)
    requires Session(cfg, net, inputs).exit
    ensures EventsIn(Session(cfg, net, inputs).out) ==
      [Note(Connected)] + middle + last
        + [Note(Disconnected(cfg.sessionId, reason)), Note(SessionClosed(cfg.deviceUuid))]
    ensures NoEdge(middle)
    ensures cfg.autoActivate ==> NoDeactivated(middle)
    ensures last == [] || last == [Note(Deactivated)]
    ensures var final := inputs[Handled(cfg, net, inputs) - 1];
      if last == [] then
        (final == StreamEnded && reason == None) || (final.StreamFailed? && reason == Some(final.error))
      else cfg.autoActivate && ActiveFlag(final) == Some(false) && reason == Some("Server set inactive")
  {
    hide Session, EventsIn, SentIn, SentUpTo, StepEvents, Step, At;
    var n := Handled(cfg, net, inputs);
    SessionProjected(cfg, net, inputs);
    HandledStops(cfg, net, inputs, 0);
    MiddleShape(cfg, net, inputs, n - 1);
    StepShape(cfg, net, At(cfg, net, inputs, n - 1), inputs[n - 1]);
    var events := StepEvents(cfg, net, At(cfg, net, inputs, n - 1), inputs[n - 1]);
    middle := EventsUpTo(cfg, net, inputs, n - 1);
    last := events[..|events| - 1];
    reason := events[|events| - 1].note.reason;
  }
}
