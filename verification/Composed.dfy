// A session whose user is the example player: the player gets the session's events in
// order, each at some clock reading, and its answers are the answers the runner awaits.
module Composed {
  import opened Basics
  import Messages
  import Transport
  import Events
  import opened Readings
  import opened Runner
  import opened RunHistory
  import opened RunLogs
  import RunTheorems
  import Player
  import PlayerQueue
  import PlayerSteps

  // The player as it starts, its random draws, and the reading at which it gets to the
  // k-th event of the session. Notifications may wait in the channel for any time.
  datatype User = User(start: Player.State, rng: Player.Rng, clocks: nat -> Player.Clock)

  function Timeline(u: User, events: seq<Events.Event>): seq<Player.Timed> {
    seq(|events|, k requires 0 <= k < |events| => Player.Timed(events[k], u.clocks(k)))
  }

  // The player once it has handled the events of the first `i` inputs, and the reading
  // at which it gets to the next event.
  function PlayerBefore(cfg: Config, net: Transport.Network, inputs: seq<Input>, u: User, i: nat): Player.State
    requires i <= |inputs|
  {
    Player.Run(u.start, Timeline(u, [Events.Note(Events.Connected)] + EventsUpTo(cfg, net, inputs, i)), u.rng)
  }

  function Moment(cfg: Config, net: Transport.Network, inputs: seq<Input>, u: User, i: nat): Player.Clock
    requires i <= |inputs|
  {
    u.clocks(1 + |EventsUpTo(cfg, net, inputs, i)|)
  }

  // The command input `i` puts to the user; whatever else it emits, it emits nothing
  // before it.
  function Asked(cfg: Config, net: Transport.Network, inputs: seq<Input>, i: nat): Option<Events.Command>
    requires i < |inputs|
  {
    var events := StepEvents(cfg, net, At(cfg, net, inputs, i), inputs[i]);
    if events != [] && events[0].Ask? then Some(events[0].command) else None
  }

  function PlayerAnswer(cfg: Config, net: Transport.Network, inputs: seq<Input>, u: User, i: nat): Events.Answer
    requires i < |inputs|
  {
    match Asked(cfg, net, inputs, i)
    case None => Events.Dropped
    case Some(c) =>
      Player.AfterAsk(PlayerBefore(cfg, net, inputs, u, i), c, u.rng, Moment(cfg, net, inputs, u, i)).answer
  }

  function Attach(input: Input, answer: Events.Answer): Input {
    match input
    case ServerMessage(m, _) => ServerMessage(m, answer)
    case Tick(_) => Tick(answer)
    case _ => input
  }

  // The inputs carry the player's answers.
  predicate Played(cfg: Config, net: Transport.Network, inputs: seq<Input>, u: User) {
    forall i :: 0 <= i < |inputs| ==>
      inputs[i] == Attach(inputs[i], PlayerAnswer(cfg, net, inputs, u, i))
  }

  // ---- Every schedule can be played -------------------------------------------------------

  lemma {:induction false} PrefixDecides(
      cfg: Config, net: Transport.Network, inputs: seq<Input>, more: seq<Input>, i: nat)
    requires i <= |inputs|
    ensures At(cfg, net, inputs + more, i) == At(cfg, net, inputs, i)
    ensures EventsUpTo(cfg, net, inputs + more, i) == EventsUpTo(cfg, net, inputs, i)
    decreases i
  {
    hide Step, StepEvents;
    if i > 0 {
      PrefixDecides(cfg, net, inputs, more, i - 1);
      assert (inputs + more)[i - 1] == inputs[i - 1];
    }
  }

  lemma AskedRegardless(cfg: Config, net: Transport.Network, st: State, input: Input, answer: Events.Answer)
    ensures StepEvents(cfg, net, st, Attach(input, answer)) == StepEvents(cfg, net, st, input)
  {
  }

  // The inputs of a schedule with the player's answers put in, one after the other.
  function Answered(cfg: Config, net: Transport.Network, schedule: seq<Input>, u: User): (inputs: seq<Input>)
    ensures |inputs| == |schedule|
  {
    if schedule == [] then []
    else
      var last := |schedule| - 1;
      var before := Answered(cfg, net, schedule[..last], u);
      before + [Attach(schedule[last], PlayerAnswer(cfg, net, before + [schedule[last]], u, last))]
  }

  // Whatever the server, the clock and the user's own commands do, the player's answers
  // make it one played session.
  lemma {:induction false} ScheduleIsPlayed(cfg: Config, net: Transport.Network, schedule: seq<Input>, u: User)
    ensures var inputs := Answered(cfg, net, schedule, u);
      && Played(cfg, net, inputs, u)
      && forall i :: 0 <= i < |schedule| ==> Attach(inputs[i], Events.Dropped) == Attach(schedule[i], Events.Dropped)
  {
    hide PlayerAnswer, At, EventsUpTo;
    if schedule != [] {
      var last := |schedule| - 1;
      var before := Answered(cfg, net, schedule[..last], u);
      var x := schedule[last];
      var answer := PlayerAnswer(cfg, net, before + [x], u, last);
      ScheduleIsPlayed(cfg, net, schedule[..last], u);
      var inputs := before + [Attach(x, answer)];
      forall i | 0 <= i < last ensures inputs[i] == Attach(inputs[i], PlayerAnswer(cfg, net, inputs, u, i)) {
        AnswerDecided(cfg, net, before, [Attach(x, answer)], u, i);
        assert inputs[i] == before[i];
      }
      LastAnswer(cfg, net, before, x, answer, u);
    }
  }

  lemma AnswerDecided(cfg: Config, net: Transport.Network, inputs: seq<Input>, more: seq<Input>, u: User, i: nat)
    requires i < |inputs|
    ensures PlayerAnswer(cfg, net, inputs + more, u, i) == PlayerAnswer(cfg, net, inputs, u, i)
  {
    hide At, EventsUpTo, StepEvents;
    PrefixDecides(cfg, net, inputs, more, i);
  }

  lemma LastAnswer(cfg: Config, net: Transport.Network, before: seq<Input>, x: Input, answer: Events.Answer, u: User)
    ensures PlayerAnswer(cfg, net, before + [Attach(x, answer)], u, |before|)
         == PlayerAnswer(cfg, net, before + [x], u, |before|)
  {
    hide At, EventsUpTo, StepEvents;
    PrefixDecides(cfg, net, before, [x], |before|);
    PrefixDecides(cfg, net, before, [Attach(x, answer)], |before|);
    AskedRegardless(cfg, net, At(cfg, net, before, |before|), x, answer);
  }

  // ---- What the server is told ------------------------------------------------------------------

  // A report of a track that is playing and not over.
  predicate ReportsPlaying(r: Messages.QueueRendererState) {
    r.playingState == Some(2) && PlayerQueue.WithinTrack(r)
  }

  // A report that carries the number of the state asked for, or of the state there was
  // when none of the numbers 0 to 3 was; and the position asked for, if any.
  predicate Obeys(r: Messages.QueueRendererState, asked: Messages.SetState, before: Player.PlayingState) {
    && (if asked.playingState.Some? && 0 <= asked.playingState.value <= 3 then r.playingState == asked.playingState
        else PlayerSteps.IsNumberOf(r.playingState, before))
    && r.currentPosition.Some?
    && (asked.currentPosition.Some? ==> r.currentPosition.value.value == asked.currentPosition)
  }

  // The message a heartbeat tick sends says Playing and lies within the track. One is
  // sent exactly when the history says active and registered, the player is Playing and
  // has not come to the end of its last track.
  lemma TickFrames(cfg: Config, net: Transport.Network, inputs: seq<Input>, u: User, i: nat)
    requires Played(cfg, net, inputs, u) && i < |inputs| && inputs[i].Tick?
    ensures var sent := StepSent(cfg, net, At(cfg, net, inputs, i), inputs[i]);
      var player := PlayerBefore(cfg, net, inputs, u, i); var now := Moment(cfg, net, inputs, u, i).now;
      && (sent != [] <==>
            && Due(cfg, inputs, i) && player.state.Playing?
            && !(PlayerSteps.PlayedOut(player, u.rng, now) && PlayerQueue.AtLastTrack(player)))
      && (sent != [] ==> exists r :: sent == [StateReport(r)] && ReportsPlaying(r))
  {
    hide At, EventsUpTo, PlayerBefore, Player.AfterAsk, Due, PlayerQueue.WithinTrack, PlayerSteps.PlayedOut,
      StateReport;
    DueHistory(cfg, net, inputs, i);
    PlayerQueue.HeartbeatReports(PlayerBefore(cfg, net, inputs, u, i), u.rng, Moment(cfg, net, inputs, u, i));
    assert inputs[i] == Attach(inputs[i], PlayerAnswer(cfg, net, inputs, u, i));
    if StepSent(cfg, net, At(cfg, net, inputs, i), inputs[i]) != [] {
      assert StepSent(cfg, net, At(cfg, net, inputs, i), inputs[i]) == [StateReport(inputs[i].answer.beat.value)];
    }
  }

  // Every SetState that asks for something is answered by one message, which obeys it.
  lemma SetStateFrames(cfg: Config, net: Transport.Network, inputs: seq<Input>, u: User, i: nat)
    requires Played(cfg, net, inputs, u) && i < |inputs| && Requested(inputs[i]).Some?
    ensures var asked := Requested(inputs[i]).value; var player := PlayerBefore(cfg, net, inputs, u, i);
      exists r :: StepSent(cfg, net, At(cfg, net, inputs, i), inputs[i]) == [StateReport(r)]
                  && Obeys(r, asked, player.state)
  {
    hide At, EventsUpTo, PlayerBefore, Player.AfterAsk, StateReport, Announced, UpdatedIn, VolumeAsked, ActiveFlag,
      Requested, SessionIdIn;
    RunTheorems.Exclusive(cfg, inputs[i]);
    var asked := Requested(inputs[i]).value;
    PlayerObeys(PlayerBefore(cfg, net, inputs, u, i), asked, u.rng, Moment(cfg, net, inputs, u, i));
    assert inputs[i] == Attach(inputs[i], PlayerAnswer(cfg, net, inputs, u, i));
    var r := inputs[i].answer.state;
    assert StepSent(cfg, net, At(cfg, net, inputs, i), inputs[i]) == [StateReport(r)];
  }

  lemma PlayerObeys(s: Player.State, asked: Messages.SetState, rng: Player.Rng, clock: Player.Clock)
    ensures var o := Player.AfterAsk(s, Events.AskSetState(asked), rng, clock);
      o.answer.StateAnswer? && Obeys(o.answer.state, asked, s.state)
  {
    hide Player.CurrentDuration, Player.Measured, Player.FindTrack;
    PlayerSteps.SetStateExactly(s, asked, rng, clock);
  }

  // An activation tells the server, up to its first failed write: muted or not, the
  // volume last asked for, quality 4; and always asks for the latest session's queue.
  lemma ActivationFrames(cfg: Config, net: Transport.Network, inputs: seq<Input>, u: User, i: nat)
    requires Played(cfg, net, inputs, u) && i < |inputs| && ActiveFlag(inputs[i]) == Some(true)
    ensures var events := Timeline(u, [Events.Note(Events.Connected)] + EventsUpTo(cfg, net, inputs, i));
      var w := |SentUpTo(cfg, net, inputs, i)|;
      var hello := [MutedReport(u.start.muted), VolumeReport(PlayerQueue.LastVolume(u.start.volume, events)),
                    MaxQualityReport(4)];
      StepSent(cfg, net, At(cfg, net, inputs, i), inputs[i])
        == hello[..if !net(w).ok then 1 else if !net(w + 1).ok then 2 else 3]
           + [QueueQuestion(if LatestUuid(inputs, i).Some? then LatestUuid(inputs, i).value else cfg.deviceUuid)]
  {
    hide At, EventsUpTo, SentUpTo, Player.Run, Player.Report, Timeline, LatestUuid, MutedReport, VolumeReport,
      MaxQualityReport, QueueQuestion, PlayerQueue.LastVolume, Announced, SessionIdIn, Requested, VolumeAsked,
      ActiveFlag,
      UpdatedIn, SetActiveIn;
    RunTheorems.Exclusive(cfg, inputs[i]);
    PlayerQueue.VolumeHistory(
      u.start, Timeline(u, [Events.Note(Events.Connected)] + EventsUpTo(cfg, net, inputs, i)), u.rng);
    UuidHistory(cfg, net, inputs, i);
    RunTheorems.WritesAreMessages(cfg, net, inputs, i);
    assert inputs[i] == Attach(inputs[i], PlayerAnswer(cfg, net, inputs, u, i));
  }
}
