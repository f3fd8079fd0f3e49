// A session from connecting to its end, as the objects that take part in it leave their
// logs, and the way of a user's command from its handle to its frame.
module WholeSession {
  import opened Basics
  import Messages
  import Codec
  import opened Transport
  import Events
  import Readings
  import opened Runner
  import RunHistory
  import RunLogs
  import SessionRunner
  import Routing
  import RoutingTheorems
  import Setup
  import TransportTheorems

  // `spawn_session` and the task it starts: set the connection up, split it, run. There is
  // no runner when a set-up write fails.
  method SpawnSession(
      setUp: Network, net: Network, cfg: Config, jwt: seq<byte>, who: Setup.Identity, inputs: seq<Input>)
      returns (connection: Setup.Connection, runner: Option<SessionRunner.SessionRunner>)
    requires forall i :: 0 <= i < |inputs| ==> SessionRunner.ValidInput(inputs[i])
    ensures connection.frames <= Setup.SetUpFrames(jwt, who, setUp)
    ensures runner.Some? ==> connection.frames == Setup.SetUpFrames(jwt, who, setUp)
    ensures runner.Some? <==> setUp(0).ok && setUp(1).ok && setUp(2).ok
    ensures runner.Some? ==>
      var r := runner.value;
      r.Valid() && r.writer.startId == 3 && r.writer.net == net && r.log == Session(cfg, net, inputs).out
    ensures var frames := connection.frames + (if runner.Some? then runner.value.writer.frames else []);
      Numbered(frames)
  {
    hide FramesOf, FrameOf, ConnectionWriter.Valid, Runner.Run, SessionRunner.ValidInput, Numbered, Setup.SetUpFrames;
    connection := new Setup.Connection(setUp);
    var ok := connection.SetUp(jwt, who);
    runner := None;
    if !ok {
      SetUpNumbered(connection.frames, jwt, who, setUp);
      assert connection.frames + [] == connection.frames;
      SetUpThree(jwt, who, setUp);
      return;
    }
    SetUpThree(jwt, who, setUp);
    var writer := connection.Split(net);
    var r := new SessionRunner.SessionRunner(cfg, writer);
    var _ := r.Run(inputs);
    runner := Some(r);
    WriterFrames(r);
    SessionNumbered(jwt, who, setUp, net, r.writer.sent);
  }

  // The n-th frame carries message id n.
  predicate Numbered(frames: seq<seq<byte>>) {
    |frames| < TWO_31 ==>
      forall n :: 1 <= n <= |frames| && TransportTheorems.Fits(frames[n - 1]) ==>
        Setup.FrameId(frames[n - 1]) == Some(n)
  }

  lemma SetUpThree(jwt: seq<byte>, who: Setup.Identity, net: Network)
    ensures |Setup.SetUpFrames(jwt, who, net)| == 3
  {
  }

  lemma WriterFrames(r: SessionRunner.SessionRunner)
    requires r.Valid()
    ensures Codec.AllValid(r.writer.sent)
    ensures r.writer.frames == FramesOf(r.writer.startId, r.writer.sent, r.writer.net, 0)
  {
  }

  lemma SessionNumbered(
      jwt: seq<byte>, who: Setup.Identity, setUp: Network, net: Network, ms: seq<Messages.QConnectMessage>)
    requires Codec.AllValid(ms)
    ensures Numbered(Setup.SetUpFrames(jwt, who, setUp) + FramesOf(3, ms, net, 0))
  {
    hide FramesOf, FrameOf, Messages.ValidMessage, Setup.SetUpFrames, Setup.FrameId, TransportTheorems.Fits;
    SetUpThree(jwt, who, setUp);
    var frames := Setup.SetUpFrames(jwt, who, setUp) + FramesOf(3, ms, net, 0);
    if |frames| < TWO_31 {
      forall n | 1 <= n <= |frames| && TransportTheorems.Fits(frames[n - 1])
        ensures Setup.FrameId(frames[n - 1]) == Some(n)
      {
        Setup.SessionFrameIds(jwt, who, setUp, net, ms, n);
      }
    }
  }

  lemma SetUpNumbered(frames: seq<seq<byte>>, jwt: seq<byte>, who: Setup.Identity, net: Network)
    requires frames <= Setup.SetUpFrames(jwt, who, net)
    ensures Numbered(frames)
  {
    hide FrameOf, Messages.ValidMessage, Setup.SetUpFrames, Setup.FrameId, TransportTheorems.Fits;
    SetUpThree(jwt, who, net);
    var all := Setup.SetUpFrames(jwt, who, net);
    SessionNumbered(jwt, who, net, net, []);
    assert all + FramesOf(3, [], net, 0) == all;
  }

  // ---- From handle to frame -------------------------------------------------------------------

  // The user commands among some inputs.
  function CommandsIn(inputs: seq<Input>): seq<Events.SessionCommand> {
    Collect(inputs, OneCommand)
  }

  function OneCommand(input: Input): seq<Events.SessionCommand> {
    if input.UserCommand? then [input.command] else []
  }

  // Where the messages of the user commands among the first `n` inputs stand in what a
  // session sends.
  function Places(cfg: Config, net: Network, inputs: seq<Input>, n: nat): seq<nat>
    requires n <= |inputs|
  {
    if n == 0 then []
    else
      Places(cfg, net, inputs, n - 1)
      + if inputs[n - 1].UserCommand? then [|RunLogs.SentUpTo(cfg, net, inputs, n - 1)|] else []
  }

  predicate Increasing(xs: seq<nat>) {
    forall i, j :: 0 <= i < j < |xs| ==> xs[i] < xs[j]
  }

  lemma {:induction false} PlacesHold(cfg: Config, net: Network, inputs: seq<Input>, n: nat)
    requires n <= |inputs|
    ensures var at := Places(cfg, net, inputs, n); var sent := RunLogs.SentUpTo(cfg, net, inputs, n);
      var commands := CommandsIn(inputs[..n]);
      && |at| == |commands| && Increasing(at)
      && forall k :: 0 <= k < |at| ==> at[k] < |sent| && sent[at[k]] == Readings.CommandReport(commands[k])
  {
    hide RunLogs.StepSent, RunHistory.At, Readings.CommandReport, Collect;
    if n == 0 {
      CollectFew(inputs[..0], OneCommand);
    } else {
      PlacesHold(cfg, net, inputs, n - 1);
      var last := inputs[n - 1];
      assert inputs[..n] == inputs[..n - 1] + [last];
      CollectAppend(inputs[..n - 1], [last], OneCommand);
      CollectFew([last], OneCommand);
      if last.UserCommand? {
        CommandSends(cfg, net, RunHistory.At(cfg, net, inputs, n - 1), last);
      }
    }
  }

  lemma CommandSends(cfg: Config, net: Network, st: State, input: Input)
    requires input.UserCommand?
    ensures RunLogs.StepSent(cfg, net, st, input) == [Readings.CommandReport(input.command)]
  {
  }

  // A frame holds its own message, alone.
  lemma {:induction false} FrameHolds(id: uint32, ms: seq<Messages.QConnectMessage>, net: Network, from: nat, k: nat)
    requires Codec.AllValid(ms) && k < |ms| && TransportTheorems.Fits(FramesOf(id, ms, net, from)[k])
    ensures var batch := ParseEnvelope(FramesOf(id, ms, net, from)[k]);
      batch.Some? && batch.value.messages == [ms[k]]
    decreases k
  {
    hide Messages.ValidMessage, FrameOf, ParseEnvelope, TransportTheorems.Fits;
    if k == 0 {
      TransportTheorems.PayloadOfFrame(id, ms[0], net(from));
    } else {
      FrameHolds(NextId(id), ms[1..], net, from + 1, k - 1);
    }
  }

  // What a runner of the routing machine and the object that runs its session have in
  // common: the device, and the commands taken from the channel.
  ghost predicate Drives(rn: Routing.Runner, cfg: Config, net: Network, inputs: seq<Input>) {
    && cfg.deviceUuid == rn.link.uuid
    && CommandsIn(inputs[..RunHistory.Handled(cfg, net, inputs)]) == rn.got
  }

  // Every command a runner got was accepted by a handle of its own device and becomes one
  // frame on its own connection, which a server reads as that command's message alone; the
  // frames come in the order in which the commands were accepted.
  lemma AcceptedBecomesFrame(
      actions: seq<Routing.Action>, q: nat, cfg: Config, inputs: seq<Input>, r: SessionRunner.SessionRunner)
      returns (at: seq<nat>)
    requires q < |Routing.Run(Routing.EMPTY, actions).runners|
    requires r.Valid() && r.log == Session(cfg, r.writer.net, inputs).out
    requires Drives(Routing.Run(Routing.EMPTY, actions).runners[q], cfg, r.writer.net, inputs)
    ensures var s := Routing.Run(Routing.EMPTY, actions); var rn := s.runners[q];
      && Routing.LinkOk(s, rn.link)
      && var hd := s.handles[rn.link.handle]; var from := RoutingTheorems.Start(s, rn.link);
      && hd.uuid == cfg.deviceUuid && |at| == |rn.got| && Increasing(at) && from + |at| <= |hd.accepted|
      && |r.writer.frames| == |SentIn(r.log)|
      && forall k :: 0 <= k < |at| ==>
           && at[k] < |r.writer.frames|
           && FrameFor(r.writer.frames[at[k]], hd.accepted[from + k])
  {
    hide Routing.Run, Routing.LinkOk, RoutingTheorems.Start, RoutingTheorems.EndsBefore, Session, SentIn, EventsIn,
      RunLogs.EventsUpTo, RunLogs.SentUpTo, RunHistory.HandledFrom, Places, FramesOf, FrameFor, Collect, Increasing;
    var s := Routing.Run(Routing.EMPTY, actions);
    var n := RunHistory.Handled(cfg, r.writer.net, inputs);
    RoutingTheorems.CommandsReachOneRunner(actions);
    assert RoutingTheorems.OwnStretch(s, s.runners[q]);
    RunLogs.SessionProjected(cfg, r.writer.net, inputs);
    PlacesHold(cfg, r.writer.net, inputs, n);
    at := Places(cfg, r.writer.net, inputs, n);
    WriterFrames(r);
    forall k | 0 <= k < |at| ensures FrameFor(r.writer.frames[at[k]], s.runners[q].got[k]) {
      CommandFrame(r, at[k], s.runners[q].got[k]);
    }
  }

  // A server that can take the frame in reads it as the command's message, alone.
  predicate FrameFor(frame: seq<byte>, c: Events.SessionCommand) {
    TransportTheorems.Fits(frame) ==>
      ParseEnvelope(frame).Some? && ParseEnvelope(frame).value.messages == [Readings.CommandReport(c)]
  }

  lemma CommandFrame(r: SessionRunner.SessionRunner, k: nat, c: Events.SessionCommand)
    requires r.Valid() && k < |r.writer.sent| && r.writer.sent[k] == Readings.CommandReport(c)
    ensures k < |r.writer.frames| && FrameFor(r.writer.frames[k], c)
  {
    hide ParseEnvelope, FramesOf, Readings.CommandReport, TransportTheorems.Fits;
    WriterFrames(r);
    if TransportTheorems.Fits(r.writer.frames[k]) {
      FrameHolds(r.writer.startId, r.writer.sent, r.writer.net, 0, k);
    }
  }
}
