// A run seen input by input, and its state as a function of the history alone.
module RunHistory {
  import opened Basics
  import opened Messages
  import opened Transport
  import Events
  import opened Readings
  import opened Runner

  // The state before input `i`, every earlier input having been handled.
  function At(cfg: Config, net: Network, inputs: seq<Input>, i: nat): State
    requires i <= |inputs|
  {
    if i == 0 then INITIAL else Step(cfg, net, At(cfg, net, inputs, i - 1), inputs[i - 1]).st
  }

  // What input `i` does.
  function Block(cfg: Config, net: Network, inputs: seq<Input>, i: nat): Outcome
    requires i < |inputs|
  {
    Step(cfg, net, At(cfg, net, inputs, i), inputs[i])
  }

  function LogUpTo(cfg: Config, net: Network, inputs: seq<Input>, n: nat): seq<Output>
    requires n <= |inputs|
  {
    if n == 0 then [] else LogUpTo(cfg, net, inputs, n - 1) + Block(cfg, net, inputs, n - 1).out
  }

  // How many inputs a run that has got to input `k` handles in all.
  function HandledFrom(cfg: Config, net: Network, inputs: seq<Input>, k: nat): (n: nat)
    requires k <= |inputs|
    ensures k <= n <= |inputs|
    decreases |inputs| - k
  {
    if k == |inputs| then k
    else if Block(cfg, net, inputs, k).exit then k + 1
    else HandledFrom(cfg, net, inputs, k + 1)
  }

  // It stops after the first input that exits, and only there.
  lemma {:induction false} HandledStops(cfg: Config, net: Network, inputs: seq<Input>, k: nat)
    requires k <= |inputs|
    ensures var n := HandledFrom(cfg, net, inputs, k);
      && (forall i :: k <= i < n - 1 ==> !Block(cfg, net, inputs, i).exit)
      && (n < |inputs| ==> k < n && Block(cfg, net, inputs, n - 1).exit)
    decreases |inputs| - k
  {
    hide Block;
    if k < |inputs| && !Block(cfg, net, inputs, k).exit {
      HandledStops(cfg, net, inputs, k + 1);
    }
  }

  function Handled(cfg: Config, net: Network, inputs: seq<Input>): nat {
    HandledFrom(cfg, net, inputs, 0)
  }

  predicate Exited(cfg: Config, net: Network, inputs: seq<Input>, n: nat)
    requires n <= |inputs|
  {
    n > 0 && Block(cfg, net, inputs, n - 1).exit
  }

  lemma {:induction false} RunFrom(cfg: Config, net: Network, inputs: seq<Input>, k: nat)
    requires k <= |inputs| && !Exited(cfg, net, inputs, k)
    ensures var n := HandledFrom(cfg, net, inputs, k);
      var o := Run(cfg, net, At(cfg, net, inputs, k), inputs[k..]);
      && o.st == At(cfg, net, inputs, n) && o.exit == Exited(cfg, net, inputs, n)
      && LogUpTo(cfg, net, inputs, k) + o.out == LogUpTo(cfg, net, inputs, n) +
           (if o.exit then [Emitted(Events.Note(Events.SessionClosed(cfg.deviceUuid)))] else [])
    decreases |inputs| - k
  {
    hide Step;
    if k < |inputs| {
      assert inputs[k..][0] == inputs[k] && inputs[k..][1..] == inputs[k + 1..];
      if !Block(cfg, net, inputs, k).exit {
        RunFrom(cfg, net, inputs, k + 1);
      }
    }
  }

  // A run is its blocks one after the other, up to and including the first that exits,
  // and then the SessionClosed event.
  lemma RunIsItsBlocks(cfg: Config, net: Network, inputs: seq<Input>)
    ensures var n := Handled(cfg, net, inputs);
      var o := Run(cfg, net, INITIAL, inputs);
      && o.st == At(cfg, net, inputs, n) && o.exit == Exited(cfg, net, inputs, n)
      && o.out == LogUpTo(cfg, net, inputs, n) +
           (if o.exit then [Emitted(Events.Note(Events.SessionClosed(cfg.deviceUuid)))] else [])
      && (!o.exit ==> n == |inputs|)
      && (forall i :: 0 <= i < n - 1 ==> !Block(cfg, net, inputs, i).exit)
  {
    hide Step, Block;
    HandledStops(cfg, net, inputs, 0);
    RunFrom(cfg, net, inputs, 0);
    assert inputs[0..] == inputs;
  }

  // ---- Activity ------------------------------------------------------------------------

  // Among the first `n` inputs the latest SetActive says true.
  ghost predicate ActiveBy(inputs: seq<Input>, n: nat)
    requires n <= |inputs|
  {
    exists k :: 0 <= k < n && ActiveFlag(inputs[k]) == Some(true)
      && forall j :: k < j < n ==> ActiveFlag(inputs[j]).None?
  }

  lemma StepActive(cfg: Config, net: Network, st: State, input: Input)
    ensures Step(cfg, net, st, input).st.isActive ==
      (if ActiveFlag(input).Some? then ActiveFlag(input).value else st.isActive)
  {
    hide Writes, Handshake, Dispatch, RequestsChange, ActiveFlag;
    if input.ServerMessage? {
      ReadAlikeRequests(input);
    } else {
      NotAMessage(cfg, input);
    }
  }

  // Only messages say anything.
  lemma NotAMessage(cfg: Config, input: Input)
    requires !input.ServerMessage?
    ensures ActiveFlag(input).None? && Announced(cfg, input).None? && Removed(input).None? && SessionIn(input).None?
  {
  }

  lemma {:induction false} ActiveHistory(cfg: Config, net: Network, inputs: seq<Input>, n: nat)
    requires n <= |inputs|
    ensures At(cfg, net, inputs, n).isActive <==> ActiveBy(inputs, n)
  {
    hide Step, ActiveFlag;
    if n > 0 {
      ActiveHistory(cfg, net, inputs, n - 1);
      StepActive(cfg, net, At(cfg, net, inputs, n - 1), inputs[n - 1]);
      match ActiveFlag(inputs[n - 1])
      case Some(flag) =>
        if flag {
          assert ActiveBy(inputs, n);
        }
      case None =>
        if ActiveBy(inputs, n - 1) {
          var k :| 0 <= k < n - 1 && ActiveFlag(inputs[k]) == Some(true)
            && forall j :: k < j < n - 1 ==> ActiveFlag(inputs[j]).None?;
          assert ActiveFlag(inputs[k]) == Some(true) && forall j :: k < j < n ==> ActiveFlag(inputs[j]).None?;
        }
        if ActiveBy(inputs, n) {
          var k :| 0 <= k < n && ActiveFlag(inputs[k]) == Some(true)
            && forall j :: k < j < n ==> ActiveFlag(inputs[j]).None?;
          assert k != n - 1;
        }
    }
  }

  lemma NotAMessageReads(cfg: Config, input: Input)
    ensures !input.ServerMessage? ==>
      && ActiveFlag(input).None? && Announced(cfg, input).None? && Removed(input).None? && SessionIn(input).None?
      && Requested(input).None? && VolumeAsked(input).None?
    ensures SessionIn(input).None? ==> UuidIn(input).None? && SessionIdIn(input).None?
    ensures SessionIn(input).Some? ==> SessionIdIn(input).Some?
  {
  }

  lemma OneReading(cfg: Config, input: Input)
    ensures Removed(input).Some? ==>
      && Announced(cfg, input).None? && SessionIn(input).None? && Requested(input).None?
      && VolumeAsked(input).None? && ActiveFlag(input).None?
  {
  }

  // ---- Registration -----------------------------------------------------------------------

  // The latest announcement for this device was `id`, and `id` was not removed since.
  ghost predicate RegisteredBy(cfg: Config, inputs: seq<Input>, n: nat, id: uint64)
    requires n <= |inputs|
  {
    exists k :: 0 <= k < n && Announced(cfg, inputs[k]) == Some(id)
      && forall j :: k < j < n ==> Announced(cfg, inputs[j]).None? && Removed(inputs[j]) != Some(id)
  }

  lemma StepRegistered(cfg: Config, net: Network, st: State, input: Input)
    ensures Step(cfg, net, st, input).st.rendererId ==
      (if Announced(cfg, input).Some? then Announced(cfg, input).value
       else if Removed(input) == Some(st.rendererId) then 0 else st.rendererId)
  {
    hide Writes, Handshake, Dispatch, RequestsChange, Announced, Removed, OwnRenderer, RemovedRenderer;
    if input.ServerMessage? {
      ReadAlike(cfg, input);
    } else {
      NotAMessage(cfg, input);
    }
  }

  // An AddRenderer changes the id and, with auto-activation, claims the active role when
  // it is about this device. About any other it changes no field and writes nothing.
  lemma RegistrationStep(cfg: Config, net: Network, st: State, input: Input)
    requires input.ServerMessage? && input.m.messageType == Some(83)
    ensures var o := Step(cfg, net, st, input); var id := Announced(cfg, input);
      if id.None? then o == Outcome(st, o.out, false) && SentIn(o.out) == []
      else if cfg.autoActivate then
        o.st == st.(rendererId := id.value, writes := st.writes + 1) && SentIn(o.out) == [ActiveClaim(id.value)]
      else o.st == st.(rendererId := id.value) && SentIn(o.out) == []
  {
    hide Writes, Dispatch, Announced, OwnRenderer, SentIn;
    ReadAlike(cfg, input);
    RegistrationSends(cfg, net, st, input.m);
  }

  lemma RegistrationSends(cfg: Config, net: Network, st: State, m: QConnectMessage)
    ensures SentIn(OnAddRenderer(cfg, net, st, m).out) ==
      if OwnRenderer(cfg, m).Some? && cfg.autoActivate then [ActiveClaim(OwnRenderer(cfg, m).value)] else []
  {
    hide Stay, Dispatch, OwnRenderer, ActiveClaim, SetActiveRendererMessage;
    NoticeSendsNothing(m);
    match OwnRenderer(cfg, m)
    case None => StayProjected(net, st, [], [], Dispatch(m));
    case Some(rid) =>
      var e := Emitted(Events.Note(Events.DeviceRegistered(cfg.deviceUuid, rid, cfg.apiJwt)));
      ClaimAlike(rid);
      StayProjected(net, st.(rendererId := rid), [e], [], Dispatch(m));
      StayProjected(net, st.(rendererId := rid), [e], [SetActiveRendererMessage(rid)], Dispatch(m));
      StayProjected(net, st.(rendererId := rid), [e], [SetActiveRendererMessage(rid)], []);
  }

  lemma ClaimAlike(rid: uint64)
    ensures ActiveClaim(rid) == SetActiveRendererMessage(rid)
  {
  }

  lemma NoticeSendsNothing(m: QConnectMessage)
    ensures SentIn(Dispatch(m)) == []
  {
  }

  // Being removed does not end activity: only the registration goes.
  lemma RemovalKeepsActivity(cfg: Config, net: Network, st: State, input: Input)
    requires Removed(input) == Some(st.rendererId)
    ensures Step(cfg, net, st, input).st == st.(rendererId := 0)
  {
    hide Writes, Dispatch, Removed, RemovedRenderer;
    if input.ServerMessage? {
      ReadAlike(cfg, input);
    } else {
      NotAMessage(cfg, input);
    }
  }

  lemma {:induction false} RegistrationHistory(cfg: Config, net: Network, inputs: seq<Input>, n: nat, id: uint64)
    requires n <= |inputs| && id != 0
    ensures At(cfg, net, inputs, n).rendererId == id <==> RegisteredBy(cfg, inputs, n, id)
  {
    hide Step, Announced, Removed;
    if n > 0 {
      var last := inputs[n - 1];
      RegistrationHistory(cfg, net, inputs, n - 1, id);
      StepRegistered(cfg, net, At(cfg, net, inputs, n - 1), last);
      if RegisteredBy(cfg, inputs, n, id) {
        var k :| 0 <= k < n && Announced(cfg, inputs[k]) == Some(id)
          && forall j :: k < j < n ==> Announced(cfg, inputs[j]).None? && Removed(inputs[j]) != Some(id);
        if k < n - 1 {
          assert RegisteredBy(cfg, inputs, n - 1, id);
        }
      }
      if Announced(cfg, last) == Some(id) {
        assert RegisteredBy(cfg, inputs, n, id);
      } else if Announced(cfg, last).None? && Removed(last) != Some(id) && RegisteredBy(cfg, inputs, n - 1, id) {
        var k :| 0 <= k < n - 1 && Announced(cfg, inputs[k]) == Some(id)
          && forall j :: k < j < n - 1 ==> Announced(cfg, inputs[j]).None? && Removed(inputs[j]) != Some(id);
        assert forall j :: k < j < n ==> Announced(cfg, inputs[j]).None? && Removed(inputs[j]) != Some(id);
      }
    }
  }

  // ---- Session ids ----------------------------------------------------------------------------

  // The latest session uuid of 16 bytes among the first `n` inputs.
  function LatestUuid(inputs: seq<Input>, n: nat): Option<Uuid>
    requires n <= |inputs|
  {
    if n == 0 then None else if UuidIn(inputs[n - 1]).Some? then UuidIn(inputs[n - 1]) else LatestUuid(inputs, n - 1)
  }

  function LatestSessionId(inputs: seq<Input>, n: nat): Option<uint64>
    requires n <= |inputs|
  {
    if n == 0 then None
    else if SessionIdIn(inputs[n - 1]).Some? then SessionIdIn(inputs[n - 1])
    else LatestSessionId(inputs, n - 1)
  }

  lemma StepUuid(cfg: Config, net: Network, st: State, input: Input)
    ensures Step(cfg, net, st, input).st.sessionUuid ==
      (if UuidIn(input).Some? then UuidIn(input) else st.sessionUuid)
    ensures Step(cfg, net, st, input).st.sessionId ==
      (if SessionIdIn(input).Some? then SessionIdIn(input) else st.sessionId)
  {
    hide Writes, Handshake, Dispatch, RequestsChange, SessionIn, SessionStateOf, UuidOf;
    if input.ServerMessage? {
      ReadAlike(cfg, input);
    } else {
      NotAMessage(cfg, input);
    }
    if SessionIn(input).Some? {
      ReadAlikeSession(SessionIn(input).value, input);
    }
  }

  lemma {:induction false} UuidHistory(cfg: Config, net: Network, inputs: seq<Input>, n: nat)
    requires n <= |inputs|
    ensures At(cfg, net, inputs, n).sessionUuid == LatestUuid(inputs, n)
    ensures At(cfg, net, inputs, n).sessionId == LatestSessionId(inputs, n)
  {
    hide Step, UuidIn, SessionIdIn;
    if n > 0 {
      UuidHistory(cfg, net, inputs, n - 1);
      StepUuid(cfg, net, At(cfg, net, inputs, n - 1), inputs[n - 1]);
    }
  }

  // ---- Heartbeats -------------------------------------------------------------------------------

  // Input `i` is a tick at which the history says active and registered.
  ghost predicate Due(cfg: Config, inputs: seq<Input>, i: nat)
    requires i < |inputs|
  {
    inputs[i].Tick? && ActiveBy(inputs, i) && exists id :: id != 0 && RegisteredBy(cfg, inputs, i, id)
  }

  lemma DueHistory(cfg: Config, net: Network, inputs: seq<Input>, i: nat)
    requires i < |inputs|
    ensures Due(cfg, inputs, i) <==>
      inputs[i].Tick? && At(cfg, net, inputs, i).isActive && At(cfg, net, inputs, i).rendererId != 0
  {
    hide At, RegisteredBy, ActiveBy;
    ActiveHistory(cfg, net, inputs, i);
    var now := At(cfg, net, inputs, i).rendererId;
    if now != 0 {
      RegistrationHistory(cfg, net, inputs, i, now);
    }
    if exists id :: id != 0 && RegisteredBy(cfg, inputs, i, id) {
      var id :| id != 0 && RegisteredBy(cfg, inputs, i, id);
      RegistrationHistory(cfg, net, inputs, i, id);
    }
  }

  ghost function DueTicks(cfg: Config, inputs: seq<Input>, n: nat): nat
    requires n <= |inputs|
  {
    if n == 0 then 0 else DueTicks(cfg, inputs, n - 1) + (if Due(cfg, inputs, n - 1) then 1 else 0)
  }
}
