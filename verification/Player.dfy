// The example player: its state, and what each call answers and leaves behind.
module Player {
  import opened Basics
  import opened Messages
  import opened Events

  datatype PlayingState = Unknown | Stopped | Playing | Paused

  datatype LoopMode = LoopUnknown | Off | RepeatOne | RepeatAll

  // `try_from` on the wire number.
  function PlayingStateOf(n: int32): Option<PlayingState> {
    match n case 0 => Some(Unknown) case 1 => Some(Stopped) case 2 => Some(Playing) case 3 => Some(Paused)
    case _ => None
  }

  function NumberOf(s: PlayingState): int32 {
    match s case Unknown => 0 case Stopped => 1 case Playing => 2 case Paused => 3
  }

  function LoopModeOf(n: int32): Option<LoopMode> {
    match n case 0 => Some(LoopUnknown) case 1 => Some(Off) case 2 => Some(RepeatOne) case 3 => Some(RepeatAll)
    case _ => None
  }

  const BUFFER_OK := 2
  const SHUFFLE_MODE_SET := 96
  const MAX_U32: uint32 := 0xFFFF_FFFF

  // One reading of both clocks serves a whole call: milliseconds on the monotonic
  // clock, milliseconds since the epoch.
  datatype Clock = Clock(now: nat, wall: uint64)

  // 1 to 6 minutes, as the random provider draws them.
  type Duration = x: int | 60_000 <= x < 360_000 witness 60_000

  // The n-th draw of the random generator.
  type Rng = nat -> Duration

  datatype State = State(
    state: PlayingState, position: uint32, stamp: nat, index: Option<nat>, queue: seq<QueueTrackRef>,
    loopMode: LoopMode, shuffle: bool, volume: uint32, muted: bool, rendererId: uint64,
    durations: map<uint64, Duration>, draws: nat)

  function Initial(now: nat): State {
    State(Stopped, 0, now, None, [], Off, false, 100, false, 0, map[], 0)
  }

  // ---- Reading the state ----------------------------------------------------------

  // Milliseconds since the recorded position, cut to 32 bits.
  function Elapsed(s: State, now: nat): uint32 {
    if now < s.stamp then 0 else AsUint32(now - s.stamp)
  }

  function SaturatingAdd(a: uint32, b: uint32): uint32 {
    if a + b > MAX_U32 then MAX_U32 else a + b
  }

  function CurrentPosition(s: State, now: nat): uint32 {
    if s.state.Playing? then SaturatingAdd(s.position, Elapsed(s, now)) else s.position
  }

  function SetPosition(s: State, position: uint32, now: nat): State {
    s.(position := position, stamp := now)
  }

  function CurrentTrack(s: State): Option<QueueTrackRef> {
    if s.index.Some? && s.index.value < |s.queue| then Some(s.queue[s.index.value]) else None
  }

  function CurrentItemId(s: State): Option<int32> {
    match CurrentTrack(s) case None => None case Some(t) => Some(AsInt32(t.queueItemId))
  }

  function NextItemId(s: State): Option<int32> {
    if s.index.Some? && s.index.value + 1 < |s.queue| then Some(AsInt32(s.queue[s.index.value + 1].queueItemId))
    else None
  }

  // The first track whose id is the sign-extended `id`.
  function FindTrack(queue: seq<QueueTrackRef>, id: int32): (r: Option<nat>)
    ensures r.Some? ==> r.value < |queue| && queue[r.value].queueItemId == AsUint64(id)
    ensures r.Some? ==> forall j :: 0 <= j < r.value ==> queue[j].queueItemId != AsUint64(id)
    ensures r.None? ==> forall j :: 0 <= j < |queue| ==> queue[j].queueItemId != AsUint64(id)
  {
    if queue == [] then None
    else if queue[0].queueItemId == AsUint64(id) then Some(0)
    else
      match FindTrack(queue[1..], id)
      case None => None
      case Some(i) => Some(i + 1)
  }

  // ---- Durations --------------------------------------------------------------------

  // A known track keeps its duration, a new one is given the next draw.
  function WithDuration(s: State, rng: Rng, trackId: uint64): (s': State)
    ensures trackId in s'.durations
    ensures forall t :: t in s.durations ==> t in s'.durations && s'.durations[t] == s.durations[t]
  {
    if trackId in s.durations then s
    else s.(durations := s.durations[trackId := rng(s.draws)], draws := s.draws + 1)
  }

  // The state once the current track, if any, has a duration.
  function Measured(s: State, rng: Rng): State {
    match CurrentTrack(s)
    case None => s
    case Some(t) => if t.trackId.None? then s else WithDuration(s, rng, t.trackId.value)
  }

  function CurrentDuration(s: State, rng: Rng): Option<Duration> {
    match CurrentTrack(s)
    case None => None
    case Some(t) =>
      if t.trackId.None? then None
      else Some(WithDuration(s, rng, t.trackId.value).durations[t.trackId.value])
  }

  // The report of `renderer_state`, which leaves the state `Measured`.
  function Report(s: State, rng: Rng, clock: Clock): QueueRendererState {
    QueueRendererState(
      Some(NumberOf(s.state)), Some(BUFFER_OK), Some(Position(Some(clock.wall), Some(CurrentPosition(s, clock.now)))),
      CurrentDuration(s, rng), None, CurrentItemId(s), NextItemId(s))
  }

  // ---- Advancing ----------------------------------------------------------------------

  function StopAtStart(s: State, now: nat): State {
    SetPosition(s.(state := Stopped), 0, now)
  }

  function Advance(s: State, now: nat): State {
    var len := |s.queue|;
    if len == 0 then StopAtStart(s, now)
    else
      var current := s.index.GetOr(0);
      match s.loopMode
      case RepeatOne => SetPosition(s.(index := Some(current)), 0, now)
      case RepeatAll => SetPosition(s.(index := Some((current + 1) % len)), 0, now)
      case _ =>
        if current + 1 >= len then StopAtStart(s, now)
        else SetPosition(s.(index := Some(current + 1)), 0, now)
  }

  // Is the current track played out?
  predicate TrackOver(s: State, rng: Rng, now: nat) {
    s.state.Playing? && CurrentDuration(s, rng).Some? && CurrentPosition(s, now) >= CurrentDuration(s, rng).value
  }

  // `tick` answers whether it was playing on entry.
  function Ticked(s: State, rng: Rng, now: nat): State {
    if !s.state.Playing? then s
    else if TrackOver(s, rng, now) then Advance(Measured(s, rng), now)
    else Measured(s, rng)
  }

  // ---- Handlers -------------------------------------------------------------------------

  function RequestedState(s: State, cmd: SetState): PlayingState {
    if cmd.playingState.None? then s.state else PlayingStateOf(cmd.playingState.value).GetOr(s.state)
  }

  // The position part of a playback command: a given position is taken, a transition
  // into or out of Playing records the current one.
  function Repositioned(s: State, cmd: SetState, now: nat): State {
    var next := RequestedState(s, cmd);
    if cmd.currentPosition.Some? then SetPosition(s, cmd.currentPosition.value, now)
    else if s.state.Playing? != next.Playing? then SetPosition(s, CurrentPosition(s, now), now)
    else s
  }

  // The track part: a queue item that is found becomes current; playing with no track
  // starts at the first.
  function Retracked(s: State, cmd: SetState): State {
    var found := if cmd.currentQueueItem.None? then None
                 else FindTrack(s.queue, AsInt32(cmd.currentQueueItem.value.queueItemId));
    var index := if found.Some? then found else s.index;
    if s.state.Playing? && index.None? && s.queue != [] then s.(index := Some(0)) else s.(index := index)
  }

  function AfterSetState(s: State, cmd: SetState, now: nat): State {
    Retracked(Repositioned(s, cmd, now).(state := RequestedState(s, cmd)), cmd)
  }

  function AfterQueue(s: State, tracks: seq<QueueTrackRef>, now: nat): State {
    var s' := s.(queue := tracks);
    match CurrentItemId(s)
    case None => s'
    case Some(id) =>
      var found := FindTrack(tracks, id);
      if found.Some? then s'.(index := found) else StopAtStart(s'.(index := None), now)
  }

  function AfterRestore(s: State, u: RendererStateUpdated, now: nat): State {
    var position := if u.state.Some? && u.state.value.currentPosition.Some?
                    then u.state.value.currentPosition.value.value.GetOr(0) else 0;
    var s' := SetPosition(s, position, now);
    if u.state.Some? && u.state.value.currentQueueIndex.Some?
    then s'.(index := Some(u.state.value.currentQueueIndex.value)) else s'
  }

  function ShuffleOn(body: Body): bool
    requires body.OtherBody?
  {
    GetBool(Slot(body.fields, 2)).GetOr(false)
  }

  // What a notification does to the player; those not listed are only logged.
  function AfterNote(s: State, n: Notification, now: nat): State {
    match n
    case Backed(t, body) =>
      if t == QUEUE_STATE && body.QueueStateBody? then AfterQueue(s, body.queueState.tracks, now)
      else if t == LOOP_MODE_SET && body.LoopModeSetBody? then
        s.(loopMode := if body.mode.Some? then LoopModeOf(body.mode.value).GetOr(LoopUnknown) else LoopUnknown)
      else if t == SHUFFLE_MODE_SET && body.OtherBody? then
        s.(shuffle := ShuffleOn(body))
      else s
    case Deactivated => s.(state := Stopped)
    case RestoreState(u) => AfterRestore(s, u, now)
    case DeviceRegistered(_, rid, _) => s.(rendererId := rid)
    case _ => s
  }

  datatype Stepped = Stepped(s: State, answer: Answer)

  function AfterAsk(s: State, c: Command, rng: Rng, clock: Clock): Stepped {
    match c
    case AskSetState(cmd) =>
      var s' := AfterSetState(s, cmd, clock.now);
      Stepped(Measured(s', rng), StateAnswer(Report(s', rng, clock)))
    case AskSetVolume(cmd) =>
      var volume := cmd.volume.GetOr(100);
      Stepped(s.(volume := volume), VolumeAnswer(Some(volume)))
    case AskSetActive(_) =>
      Stepped(Measured(s, rng), ActivationAnswer(ActivationState(s.muted, s.volume, 4, Report(s, rng, clock))))
    case AskHeartbeat =>
      var s' := Ticked(s, rng, clock.now);
      if s.state.Playing? && s'.state.Playing?
      then Stepped(Measured(s', rng), HeartbeatAnswer(Some(Report(s', rng, clock))))
      else Stepped(s', HeartbeatAnswer(None))
  }

  // One event from the session; a notification has no answer.
  function Step(s: State, e: Event, rng: Rng, clock: Clock): Stepped {
    match e
    case Note(n) => Stepped(AfterNote(s, n, clock.now), Dropped)
    case Ask(c) => AfterAsk(s, c, rng, clock)
  }

  datatype Timed = Timed(event: Event, clock: Clock)

  function Run(s: State, events: seq<Timed>, rng: Rng): State {
    if events == [] then s
    else Step(Run(s, events[..|events| - 1], rng), events[|events| - 1].event, rng, events[|events| - 1].clock).s
  }
}
