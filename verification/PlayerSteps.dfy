// What each event does to the example player and what it is answered, with the numbers of
// the protocol and the fields of the player written out.
module PlayerSteps {
  import opened Basics
  import opened Messages
  import opened Events
  import opened Player
  import opened PlayerPosition

  // `n` is the wire number of the playing state `p`.
  predicate IsNumberOf(n: Option<int32>, p: PlayingState) {
    && (p.Unknown? <==> n == Some(0)) && (p.Stopped? <==> n == Some(1))
    && (p.Playing? <==> n == Some(2)) && (p.Paused? <==> n == Some(3))
  }

  // `p` is the state a command with wire number `n` leaves: the one of that number, or
  // for no number or an unknown one the state there was.
  predicate Leaves(n: Option<int32>, before: PlayingState, p: PlayingState) {
    if n.Some? && 0 <= n.value <= 3 then IsNumberOf(n, p) else p == before
  }

  // `id` cut to 32 bits and read as a signed number.
  function Signed(id: uint64): int32 {
    var low := id % 0x1_0000_0000;
    if low < 0x8000_0000 then low else low - 0x1_0000_0000
  }

  // ---- Reports ------------------------------------------------------------------------------

  // The track at index `i`, if there is one.
  function TrackAt(s: State, i: nat): Option<QueueTrackRef> {
    if i < |s.queue| then Some(s.queue[i]) else None
  }

  function ItemOf(track: Option<QueueTrackRef>): Option<int32> {
    if track.None? then None else Some(Signed(track.value.queueItemId))
  }

  // The duration of the current track: the one it has, or the next draw.
  function DurationNow(s: State, rng: Rng): Option<Duration> {
    if s.index.None? || s.index.value >= |s.queue| || s.queue[s.index.value].trackId.None? then None
    else
      var track := s.queue[s.index.value].trackId.value;
      Some(if track in s.durations then s.durations[track] else rng(s.draws))
  }

  // The position shown: the one recorded and, while playing, the time since then cut to 32
  // bits, up to the largest 32-bit number. A clock behind the record adds nothing.
  lemma PositionIs(s: State, now: nat)
    ensures var shown := CurrentPosition(s, now);
      && (!s.state.Playing? || now <= s.stamp ==> shown == s.position)
      && (s.state.Playing? && now > s.stamp ==>
            var sum := s.position + (now - s.stamp) % 0x1_0000_0000;
            shown == if sum <= 0xFFFF_FFFF then sum else 0xFFFF_FFFF)
  {
  }

  // A report: the playing state's number, buffer state Ok, the position of the moment, the
  // duration, no queue version, the items at the index and after it.
  lemma ReportExactly(s: State, rng: Rng, clock: Clock)
    ensures var r := Report(s, rng, clock);
      && IsNumberOf(r.playingState, s.state) && r.bufferState == Some(2)
      && r.currentPosition == Some(Position(Some(clock.wall), Some(CurrentPosition(s, clock.now))))
      && r.duration == DurationNow(s, rng) && r.queueVersion == None
      && r.currentQueueItemId == ItemOf(if s.index.None? then None else TrackAt(s, s.index.value))
      && r.nextQueueItemId == ItemOf(if s.index.None? then None else TrackAt(s, s.index.value + 1))
  {
    hide CurrentPosition;
  }

  // The player once its current track has a duration: a track that has none is given the
  // next draw.
  function Drawn(s: State, rng: Rng): State {
    if s.index.None? || s.index.value >= |s.queue| || s.queue[s.index.value].trackId.None? then s
    else
      var track := s.queue[s.index.value].trackId.value;
      if track in s.durations then s
      else s.(durations := s.durations[track := rng(s.draws)], draws := s.draws + 1)
  }

  lemma MeasuredExactly(s: State, rng: Rng)
    ensures Measured(s, rng) == Drawn(s, rng)
  {
  }

  // ---- Commands -----------------------------------------------------------------------------

  // A playback command leaves the state of its number, answers with it, and changes nothing
  // besides state, position, index and, the track being reported, its duration.
  lemma SetStateExactly(s: State, cmd: SetState, rng: Rng, clock: Clock)
    ensures var o := AfterAsk(s, AskSetState(cmd), rng, clock);
      && o.answer.StateAnswer?
      && Leaves(cmd.playingState, s.state, o.s.state)
      && IsNumberOf(o.answer.state.playingState, o.s.state)
      && o.s == Drawn(s.(state := o.s.state, position := o.s.position, stamp := o.s.stamp, index := o.s.index), rng)
  {
    hide CurrentPosition, Measured, FindTrack, Report, DurationNow, ItemOf, TrackAt, Drawn;
    var s' := AfterSetState(s, cmd, clock.now);
    ReportExactly(s', rng, clock);
    MeasuredShows(s', rng, clock.now);
    MeasuredExactly(s', rng);
  }

  lemma SetVolumeExactly(s: State, cmd: SetVolume, rng: Rng, clock: Clock)
    ensures var v := if cmd.volume.Some? then cmd.volume.value else 100;
      AfterAsk(s, AskSetVolume(cmd), rng, clock) == Stepped(s.(volume := v), VolumeAnswer(Some(v)))
  {
  }

  lemma SetActiveExactly(s: State, cmd: SetActive, rng: Rng, clock: Clock)
    ensures var o := AfterAsk(s, AskSetActive(cmd), rng, clock);
      && o.s == Drawn(s, rng)
      && o.answer == ActivationAnswer(ActivationState(s.muted, s.volume, 4, Report(s, rng, clock)))
  {
    hide Report, Measured, Drawn;
    MeasuredExactly(s, rng);
  }

  // ---- Heartbeats -----------------------------------------------------------------------------

  // The current track is played out.
  predicate PlayedOut(s: State, rng: Rng, now: nat) {
    s.state.Playing? && DurationNow(s, rng).Some? && CurrentPosition(s, now) >= DurationNow(s, rng).value
  }

  // The track that follows when the current one is played out: itself, the next one around,
  // or the next one, if there is one.
  function Follower(s: State): Option<nat>
    requires s.index.Some? && s.queue != []
  {
    match s.loopMode
    case RepeatOne => s.index
    case RepeatAll => Some((s.index.value + 1) % |s.queue|)
    case _ => if s.index.value + 1 < |s.queue| then Some(s.index.value + 1) else None
  }

  // A heartbeat changes nothing for a player that does not play. One whose track is played
  // out is moved to the start of the track that follows, or stopped at the start of the
  // last. Tracks looked at and reported are given durations.
  lemma HeartbeatExactly(s: State, rng: Rng, clock: Clock)
    ensures var s' := AfterAsk(s, AskHeartbeat, rng, clock).s; var m := Drawn(s, rng);
      if !s.state.Playing? then s' == s
      else if !PlayedOut(s, rng, clock.now) then s' == m
      else
        && s.index.Some? && s.queue != []
        && var f := Follower(s);
          if f.None? then s' == m.(position := 0, stamp := clock.now, state := Stopped)
          else s' == Drawn(m.(position := 0, stamp := clock.now, index := f), rng)
  {
    hide Report, Measured, CurrentPosition, WithDuration, Advance, Drawn;
    var m := Measured(s, rng);
    MeasuredExactly(s, rng);
    MeasuredShows(s, rng, clock.now);
    OverAlike(s, rng, clock.now);
    if PlayedOut(s, rng, clock.now) {
      AdvanceExactly(m, clock.now);
      MeasuredExactly(Advance(m, clock.now), rng);
    } else {
      MeasuredExactly(m, rng);
      DrawnOnce(s, rng);
    }
  }

  // A duration is drawn once.
  lemma DrawnOnce(s: State, rng: Rng)
    ensures Drawn(Drawn(s, rng), rng) == Drawn(s, rng)
  {
  }

  lemma OverAlike(s: State, rng: Rng, now: nat)
    ensures TrackOver(s, rng, now) <==> PlayedOut(s, rng, now)
  {
    hide CurrentPosition;
  }

  lemma AdvanceExactly(s: State, now: nat)
    requires s.index.Some? && s.queue != []
    ensures var f := Follower(s);
      Advance(s, now) == s.(position := 0, stamp := now, index := if f.Some? then f else s.index,
                            state := if f.Some? then s.state else Stopped)
  {
  }

  // ---- Notifications -----------------------------------------------------------------------------

  // A restored state: its position or 0, and its queue index if it has one.
  lemma RestoreExactly(s: State, u: RendererStateUpdated, now: nat)
    ensures var s' := AfterNote(s, RestoreState(u), now); var r := u.state;
      && s' == s.(position := s'.position, stamp := now, index := s'.index)
      && (r.Some? && r.value.currentPosition.Some? && r.value.currentPosition.value.value.Some? ==>
            s'.position == r.value.currentPosition.value.value.value)
      && (r.None? || r.value.currentPosition.None? || r.value.currentPosition.value.value.None? ==> s'.position == 0)
      && s'.index == if r.Some? && r.value.currentQueueIndex.Some? then Some(r.value.currentQueueIndex.value)
                     else s.index
  {
  }

  // Message types 90, 96 and 97, deactivation, restoring and registration act on the player;
  // every other notification leaves it alone.
  lemma NoteExactly(s: State, n: Notification, now: nat)
    ensures var s' := AfterNote(s, n, now);
      match n
      case Backed(90, QueueStateBody(q)) => s' == AfterQueue(s, q.tracks, now)
      case Backed(96, OtherBody(fields)) =>
        s' == s.(shuffle := |fields| > 2 && fields[2] != [] && fields[2][0].N? && fields[2][0].n != 0)
      case Backed(97, LoopModeSetBody(mode)) =>
        s' == s.(loopMode := if mode == Some(1) then Off else if mode == Some(2) then RepeatOne
                             else if mode == Some(3) then RepeatAll else LoopUnknown)
      case Deactivated => s' == s.(state := Stopped)
      case RestoreState(_) => true
      case DeviceRegistered(_, id, _) => s' == s.(rendererId := id)
      case _ => s' == s
  {
    hide AfterQueue, AfterRestore;
  }

  // A queue that comes while there is no current track is stored as it is.
  lemma QueueWithoutTrack(s: State, tracks: seq<QueueTrackRef>, now: nat)
    requires s.index.None? || s.index.value >= |s.queue|
    ensures AfterQueue(s, tracks, now) == s.(queue := tracks)
  {
  }

  // ---- The start -------------------------------------------------------------------------------------

  lemma InitialExactly(now: nat)
    ensures var s := Initial(now);
      && s.state.Stopped? && s.position == 0 && s.stamp == now && s.index.None? && s.queue == []
      && s.loopMode.Off? && !s.shuffle && s.volume == 100 && !s.muted && s.rendererId == 0
      && s.durations == map[] && s.draws == 0
  {
  }
}
