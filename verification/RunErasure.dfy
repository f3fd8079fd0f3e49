// Which inputs a renderer does not respond to, and that leaving them out of a run
// changes nothing the server sees.
module RunErasure {
  import opened Basics
  import Transport
  import Events
  import opened Readings
  import opened Runner
  import RunHistory
  import RunLogs
  import RunTheorems

  // In state `st` the input changes no state, sends nothing and does not end the run.
  ghost predicate Silent(cfg: Config, net: Transport.Network, st: State, input: Input) {
    var o := Step(cfg, net, st, input);
    o.st == st && SentIn(o.out) == [] && !o.exit
  }

  // Inputs that are silent whatever the state: told from the input alone.
  predicate Inert(cfg: Config, input: Input) {
    match input
    case ServerMessage(m, answer) =>
      && Announced(cfg, input).None?
      && (Removed(input).None? || Removed(input) == Some(0))
      && SessionIn(input).None?
      && (Requested(input).None? || !answer.StateAnswer?)
      && (VolumeAsked(input).None? || !answer.VolumeAnswer?)
      && ActiveFlag(input).None?
    case Tick(answer) => !(answer.HeartbeatAnswer? && answer.beat.Some?)
    case CommandsClosed => true
    case _ => false
  }

  // A broadcast: a renderer state update, or a message only the default arm sees.
  predicate Broadcast(input: Input) {
    input.ServerMessage? && (input.m.messageType.Some? ==> input.m.messageType.value !in {41, 42, 43, 81, 83, 85})
  }

  lemma {:induction false} InertIsSilent(cfg: Config, net: Transport.Network, st: State, input: Input)
    requires Inert(cfg, input)
    ensures Silent(cfg, net, st, input)
  {
    hide SentIn, Step, Inert, RunLogs.StepSent, RunLogs.StepEvents;
    RunLogs.StepProjected(cfg, net, st, input);
    InertSends(cfg, net, st, input);
    InertKeeps(cfg, net, st, input);
  }

  lemma {:induction false} InertSends(cfg: Config, net: Transport.Network, st: State, input: Input)
    requires Inert(cfg, input)
    ensures RunLogs.StepSent(cfg, net, st, input) == []
  {
    hide Announced, Removed, SessionIn, Requested, VolumeAsked, ActiveFlag, Hello;
  }

  lemma {:induction false} InertKeeps(cfg: Config, net: Transport.Network, st: State, input: Input)
    requires Inert(cfg, input)
    ensures Step(cfg, net, st, input).st == st && !Step(cfg, net, st, input).exit
  {
    hide Step, Announced, Removed, SessionIn, Requested, VolumeAsked, ActiveFlag, RunLogs.StepSent;
    InertSends(cfg, net, st, input);
    RunHistory.NotAMessageReads(cfg, input);
    RunHistory.StepActive(cfg, net, st, input);
    RunHistory.StepRegistered(cfg, net, st, input);
    RunHistory.StepUuid(cfg, net, st, input);
    RunTheorems.StepWrites(cfg, net, st, input);
    RunTheorems.ExitsExactly(cfg, net, st, input);
  }

  // A state in which an input that is not inert shows.
  function Witness(cfg: Config, input: Input): State {
    if Announced(cfg, input) == Some(0) then INITIAL.(rendererId := 1)
    else if Removed(input).Some? then INITIAL.(rendererId := Removed(input).value)
    else if ActiveFlag(input) == Some(false) then INITIAL.(isActive := true)
    else if input.Tick? then INITIAL.(isActive := true, rendererId := 1)
    else INITIAL
  }

  lemma {:induction false} OthersShow(cfg: Config, net: Transport.Network, input: Input)
    requires !Inert(cfg, input)
    ensures !Silent(cfg, net, Witness(cfg, input), input)
  {
    hide SentIn, Step, RunLogs.StepEvents, Announced, Removed, SessionIn, Requested, VolumeAsked, ActiveFlag, Hello;
    var st := Witness(cfg, input);
    RunTheorems.Exclusive(cfg, input);
    RunHistory.NotAMessageReads(cfg, input);
    RunHistory.OneReading(cfg, input);
    RunLogs.StepProjected(cfg, net, st, input);
    RunHistory.StepActive(cfg, net, st, input);
    RunHistory.StepRegistered(cfg, net, st, input);
    RunTheorems.ExitsExactly(cfg, net, st, input);
  }

  // Inert inputs are exactly those the renderer never responds to.
  lemma InertExactly(cfg: Config, net: Transport.Network, input: Input)
    ensures Inert(cfg, input) <==> forall st: State :: Silent(cfg, net, st, input)
  {
    hide Silent, Inert;
    if Inert(cfg, input) {
      forall st: State ensures Silent(cfg, net, st, input) {
        InertIsSilent(cfg, net, st, input);
      }
    } else {
      OthersShow(cfg, net, input);
    }
  }

  // `kept` is `inputs` with some inert inputs left out.
  predicate Erases(cfg: Config, inputs: seq<Input>, kept: seq<Input>)
    decreases |inputs|
  {
    if inputs == [] then kept == []
    else
      || (Inert(cfg, inputs[0]) && Erases(cfg, inputs[1..], kept))
      || (kept != [] && kept[0] == inputs[0] && Erases(cfg, inputs[1..], kept[1..]))
  }

  // The two-run theorem: with the users' answers kept, leaving out inert inputs leaves
  // the messages sent, the final state and the decision to exit as they were.
  lemma {:induction false} Erasure(cfg: Config, net: Transport.Network, st: State, inputs: seq<Input>, kept: seq<Input>)
    requires Erases(cfg, inputs, kept)
    ensures SentIn(Run(cfg, net, st, inputs).out) == SentIn(Run(cfg, net, st, kept).out)
    ensures Run(cfg, net, st, inputs).st == Run(cfg, net, st, kept).st
    ensures Run(cfg, net, st, inputs).exit == Run(cfg, net, st, kept).exit
    decreases |inputs|
  {
    hide SentIn, Step, Inert;
    if inputs != [] {
      var first := Step(cfg, net, st, inputs[0]);
      if kept != [] && kept[0] == inputs[0] && Erases(cfg, inputs[1..], kept[1..]) {
        if !first.exit {
          Erasure(cfg, net, first.st, inputs[1..], kept[1..]);
          SentInAppend(first.out, Run(cfg, net, first.st, inputs[1..]).out);
          SentInAppend(first.out, Run(cfg, net, first.st, kept[1..]).out);
        }
      } else {
        InertIsSilent(cfg, net, st, inputs[0]);
        Erasure(cfg, net, st, inputs[1..], kept);
        SentInAppend(first.out, Run(cfg, net, st, inputs[1..]).out);
      }
    }
  }

  // A run without its broadcasts.
  function WithoutBroadcasts(inputs: seq<Input>): seq<Input> {
    if inputs == [] then []
    else (if Broadcast(inputs[0]) then [] else [inputs[0]]) + WithoutBroadcasts(inputs[1..])
  }

  lemma BroadcastInert(cfg: Config, input: Input)
    requires Broadcast(input)
    ensures Inert(cfg, input)
  {
  }

  lemma {:induction false} BroadcastsErased(cfg: Config, inputs: seq<Input>)
    ensures Erases(cfg, inputs, WithoutBroadcasts(inputs))
  {
    hide Broadcast, Inert;
    if inputs != [] {
      BroadcastsErased(cfg, inputs[1..]);
      if Broadcast(inputs[0]) {
        BroadcastInert(cfg, inputs[0]);
        assert WithoutBroadcasts(inputs) == WithoutBroadcasts(inputs[1..]);
      } else {
        assert WithoutBroadcasts(inputs)[1..] == WithoutBroadcasts(inputs[1..]);
      }
    }
  }

  // The renderer does not respond to broadcasts.
  lemma BroadcastsGetNoResponse(cfg: Config, net: Transport.Network, inputs: seq<Input>)
    ensures var all := Session(cfg, net, inputs); var some := Session(cfg, net, WithoutBroadcasts(inputs));
      SentIn(all.out) == SentIn(some.out) && all.st == some.st && all.exit == some.exit
  {
    hide SentIn, Run;
    var kept := WithoutBroadcasts(inputs);
    BroadcastsErased(cfg, inputs);
    Erasure(cfg, net, INITIAL, inputs, kept);
    SentInAppend([Emitted(Events.Note(Events.Connected))], Run(cfg, net, INITIAL, inputs).out);
    SentInAppend([Emitted(Events.Note(Events.Connected))], Run(cfg, net, INITIAL, kept).out);
  }
}
