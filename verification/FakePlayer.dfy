// The example player as the class that keeps its state in fields, refining the steps
// of module Player. Each method is given the clock reading of the step it is part of.
module FakePlayer {
  import opened Basics
  import Messages
  import opened Events
  import opened Player

  class RandomDurationProvider {
    const rng: Rng
    var cache: map<uint64, Duration>
    var draws: nat

    constructor (rng: Rng)
      ensures this.rng == rng && cache == map[] && draws == 0
    {
      this.rng := rng;
      cache := map[];
      draws := 0;
    }

    // A track's first look-up draws its duration, later ones find it again.
    method GetDuration(trackId: uint64) returns (d: Duration)
      modifies this
      ensures trackId in old(cache) ==> cache == old(cache) && draws == old(draws)
      ensures trackId !in old(cache) ==> cache == old(cache)[trackId := rng(old(draws))] && draws == old(draws) + 1
      ensures trackId in cache && d == cache[trackId]
    {
      if trackId !in cache {
        cache := cache[trackId := rng(draws)];
        draws := draws + 1;
      }
      d := cache[trackId];
    }
  }

  class FakePlayer {
    var state: PlayingState
    var positionAtTimestamp: uint32
    var positionTimestamp: nat
    var currentTrackIndex: Option<nat>
    var queue: seq<Messages.QueueTrackRef>
    var loopMode: LoopMode
    var shuffleEnabled: bool
    var volume: uint32
    var muted: bool
    var rendererId: uint64
    const durations: RandomDurationProvider

    ghost function St(): State
      reads this, durations
    {
      State(state, positionAtTimestamp, positionTimestamp, currentTrackIndex, queue, loopMode, shuffleEnabled,
            volume, muted, rendererId, durations.cache, durations.draws)
    }

    constructor (rng: Rng, now: nat)
      ensures fresh(durations) && durations.rng == rng && St() == Initial(now)
    {
      state := Stopped;
      positionAtTimestamp := 0;
      positionTimestamp := now;
      currentTrackIndex := None;
      queue := [];
      loopMode := Off;
      shuffleEnabled := false;
      volume := 100;
      muted := false;
      rendererId := 0;
      durations := new RandomDurationProvider(rng);
    }

    method CurrentPositionMs(now: nat) returns (p: uint32)
      ensures p == CurrentPosition(St(), now)
    {
      if state == Playing {
        var elapsed := if now < positionTimestamp then 0 else AsUint32(now - positionTimestamp);
        p := if positionAtTimestamp + elapsed > MAX_U32 then MAX_U32 else positionAtTimestamp + elapsed;
      } else {
        p := positionAtTimestamp;
      }
    }

    method SetPosition(position: uint32, now: nat)
      modifies this`positionAtTimestamp, this`positionTimestamp
      ensures St() == Player.SetPosition(old(St()), position, now)
    {
      positionAtTimestamp := position;
      positionTimestamp := now;
    }

    method CurrentDuration() returns (d: Option<Duration>)
      modifies durations
      ensures d == Player.CurrentDuration(old(St()), durations.rng)
      ensures St() == Measured(old(St()), durations.rng)
    {
      d := None;
      if currentTrackIndex.Some? && currentTrackIndex.value < |queue| {
        var track := queue[currentTrackIndex.value];
        if track.trackId.Some? {
          var drawn := durations.GetDuration(track.trackId.value);
          d := Some(drawn);
        }
      }
    }

    method RendererState(clock: Clock) returns (r: Messages.QueueRendererState)
      modifies durations
      ensures r == Report(old(St()), durations.rng, clock)
      ensures St() == Measured(old(St()), durations.rng)
    {
      hide CurrentPosition, Measured, Player.CurrentDuration;
      var position := CurrentPositionMs(clock.now);
      var duration := CurrentDuration();
      var current := if currentTrackIndex.Some? && currentTrackIndex.value < |queue|
        then Some(AsInt32(queue[currentTrackIndex.value].queueItemId)) else None;
      var next := if currentTrackIndex.Some? && currentTrackIndex.value + 1 < |queue|
        then Some(AsInt32(queue[currentTrackIndex.value + 1].queueItemId)) else None;
      MeasuredKeeps(old(St()), durations.rng);
      r := Messages.QueueRendererState(
        Some(NumberOf(state)), Some(BUFFER_OK), Some(Messages.Position(Some(clock.wall), Some(position))),
        duration, None, current, next);
    }

    // Answers whether the player was playing when the tick came.
    method Tick(now: nat) returns (playing: bool)
      modifies this, durations
      ensures playing == old(state).Playing?
      ensures St() == Ticked(old(St()), durations.rng, now)
    {
      hide CurrentPosition, Measured, Player.CurrentDuration, Advance;
      if state != Playing {
        return false;
      }
      var position := CurrentPositionMs(now);
      var duration := CurrentDuration();
      MeasuredKeeps(old(St()), durations.rng);
      if duration.Some? && position >= duration.value {
        playing := AdvanceTrack(now);
        return;
      }
      playing := true;
    }

    method AdvanceTrack(now: nat) returns (playing: bool)
      modifies this
      ensures playing && St() == Advance(old(St()), now)
    {
      playing := true;
      var len := |queue|;
      if len == 0 {
        state := Stopped;
        SetPosition(0, now);
        return;
      }
      var current := currentTrackIndex.GetOr(0);
      var next := current + 1;
      match loopMode {
        case RepeatOne => next := current;
        case RepeatAll => next := (current + 1) % len;
        case _ =>
          if current + 1 >= len {
            state := Stopped;
            SetPosition(0, now);
            return;
          }
      }
      currentTrackIndex := Some(next);
      SetPosition(0, now);
    }

    // The first track in the queue whose id is `id` sign-extended to 64 bits.
    method FindTrackIndex(id: int32) returns (r: Option<nat>)
      ensures r == FindTrack(queue, id)
    {
      var target := AsUint64(id);
      for i := 0 to |queue|
        invariant forall j :: 0 <= j < i ==> queue[j].queueItemId != target
      {
        if queue[i].queueItemId == target {
          return Some(i);
        }
      }
      r := None;
    }

    method HandlePlaybackCommand(cmd: Messages.SetState, clock: Clock) returns (r: Messages.QueueRendererState)
      modifies this, durations
      ensures var s := AfterSetState(old(St()), cmd, clock.now);
        r == Report(s, durations.rng, clock) && St() == Measured(s, durations.rng)
    {
      hide CurrentPosition, Measured, Report, FindTrack;
      var next := if cmd.playingState.None? then state else PlayingStateOf(cmd.playingState.value).GetOr(state);
      var wasPlaying := state == Playing;
      if cmd.currentPosition.Some? {
        SetPosition(cmd.currentPosition.value, clock.now);
      } else if !wasPlaying && next == Playing {
        var position := CurrentPositionMs(clock.now);
        SetPosition(position, clock.now);
      } else if wasPlaying && next != Playing {
        var position := CurrentPositionMs(clock.now);
        SetPosition(position, clock.now);
      }
      state := next;
      if cmd.currentQueueItem.Some? {
        var found := FindTrackIndex(AsInt32(cmd.currentQueueItem.value.queueItemId));
        if found.Some? {
          currentTrackIndex := found;
        }
      }
      if state == Playing && currentTrackIndex.None? && queue != [] {
        currentTrackIndex := Some(0);
      }
      r := RendererState(clock);
    }

    method HandleSetVolume(v: uint32) returns (r: Option<uint32>)
      modifies this`volume
      ensures r == Some(v) && St() == old(St()).(volume := v)
    {
      volume := v;
      r := Some(v);
    }

    method HandleActivate(clock: Clock) returns (a: ActivationState)
      modifies durations
      ensures a == ActivationState(muted, volume, 4, Report(old(St()), durations.rng, clock))
      ensures St() == Measured(old(St()), durations.rng)
    {
      hide Report, Measured;
      var playback := RendererState(clock);
      a := ActivationState(muted, volume, 4, playback);
    }

    method HandleDeactivate()
      modifies this`state
      ensures St() == old(St()).(state := Stopped)
    {
      state := Stopped;
    }

    method HandleQueueUpdate(tracks: seq<Messages.QueueTrackRef>, now: nat)
      modifies this
      ensures St() == AfterQueue(old(St()), tracks, now)
    {
      hide FindTrack;
      var id := if currentTrackIndex.Some? && currentTrackIndex.value < |queue|
        then Some(AsInt32(queue[currentTrackIndex.value].queueItemId)) else None;
      queue := tracks;
      if id.Some? {
        currentTrackIndex := FindTrackIndex(id.value);
        if currentTrackIndex.None? {
          state := Stopped;
          SetPosition(0, now);
        }
      }
    }

    method HandleHeartbeat(clock: Clock) returns (r: Option<Messages.QueueRendererState>)
      modifies this, durations
      ensures HeartbeatAnswer(r) == AfterAsk(old(St()), AskHeartbeat, durations.rng, clock).answer
      ensures St() == AfterAsk(old(St()), AskHeartbeat, durations.rng, clock).s
    {
      hide Report, Measured, Ticked;
      var playing := Tick(clock.now);
      if playing && state == Playing {
        var s := RendererState(clock);
        r := Some(s);
      } else {
        r := None;
      }
    }

    method HandleRestoreState(u: Messages.RendererStateUpdated, now: nat)
      modifies this
      ensures St() == AfterRestore(old(St()), u, now)
    {
      var position := if u.state.Some? && u.state.value.currentPosition.Some?
        then u.state.value.currentPosition.value.value.GetOr(0) else 0;
      SetPosition(position, now);
      if u.state.Some? && u.state.value.currentQueueIndex.Some? {
        currentTrackIndex := Some(u.state.value.currentQueueIndex.value);
      }
    }

    // The part of the main loop that handles notifications.
    method HandleNotification(n: Notification, now: nat)
      modifies this
      ensures St() == AfterNote(old(St()), n, now)
    {
      hide AfterQueue, AfterRestore;
      match n {
        case Backed(t, body) =>
          if t == Messages.QUEUE_STATE && body.QueueStateBody? {
            HandleQueueUpdate(body.queueState.tracks, now);
          } else if t == Messages.LOOP_MODE_SET && body.LoopModeSetBody? {
            loopMode := if body.mode.Some? then LoopModeOf(body.mode.value).GetOr(LoopUnknown) else LoopUnknown;
          } else if t == SHUFFLE_MODE_SET && body.OtherBody? {
            shuffleEnabled := ShuffleOn(body);
          }
        case Deactivated => HandleDeactivate();
        case RestoreState(u) => HandleRestoreState(u, now);
        case DeviceRegistered(_, rid, _) => rendererId := rid;
        case _ =>
      }
    }

    // The part that answers commands.
    method HandleCommand(c: Command, clock: Clock) returns (answer: Answer)
      modifies this, durations
      ensures Stepped(St(), answer) == AfterAsk(old(St()), c, durations.rng, clock)
    {
      hide Report, Measured, Ticked, AfterSetState;
      match c {
        case AskSetState(cmd) =>
          var r := HandlePlaybackCommand(cmd, clock);
          answer := StateAnswer(r);
        case AskSetActive(_) =>
          var a := HandleActivate(clock);
          answer := ActivationAnswer(a);
        case AskSetVolume(cmd) =>
          var v := HandleSetVolume(cmd.volume.GetOr(100));
          answer := VolumeAnswer(v);
        case AskHeartbeat =>
          var beat := HandleHeartbeat(clock);
          answer := HeartbeatAnswer(beat);
      }
    }

    // The main loop over the events received, each at its own clock reading.
    method Run(events: seq<Timed>) returns (answers: seq<Answer>)
      modifies this, durations
      ensures St() == Player.Run(old(St()), events, durations.rng)
      ensures answers == Answers(old(St()), events, durations.rng)
    {
      hide AfterAsk, AfterNote, FakePlayer.St;
      answers := [];
      for i := 0 to |events|
        invariant St() == Player.Run(old(St()), events[..i], durations.rng)
        invariant answers == Answers(old(St()), events[..i], durations.rng)
      {
        assert events[..i + 1][..i] == events[..i];
        match events[i].event {
          case Note(n) =>
            HandleNotification(n, events[i].clock.now);
            answers := answers + [Dropped];
          case Ask(c) =>
            var answer := HandleCommand(c, events[i].clock);
            answers := answers + [answer];
        }
      }
      assert events[..|events|] == events;
    }
  }

  // What each event of a run is answered.
  function Answers(s: State, events: seq<Timed>, rng: Rng): seq<Answer> {
    if events == [] then []
    else
      var last := |events| - 1;
      Answers(s, events[..last], rng)
        + [Step(Player.Run(s, events[..last], rng), events[last].event, rng, events[last].clock).answer]
  }

  // Looking a duration up changes nothing but the cache.
  lemma MeasuredKeeps(s: State, rng: Rng)
    ensures var m := Measured(s, rng); m == s.(durations := m.durations, draws := m.draws)
  {
  }
}
