// Whole runs of the example player: the track it keeps, the index it holds, the order
// it plays in, and what its reports say.
module PlayerQueue {
  import opened Basics
  import Messages
  import opened Events
  import opened Player
  import opened PlayerPosition
  import PlayerSteps

  // ---- The current queue item ---------------------------------------------------------------

  // The id by which an update looks the current item up: cut to 32 bits on the way out,
  // sign-extended on the way back.
  function Key(id: uint64): uint64 {
    AsUint64(AsInt32(id))
  }

  lemma KeyIsIdentity(id: uint64)
    ensures Key(id) == id <==> id < TWO_31 || id >= TWO_64 - TWO_31
    ensures Key(Key(id)) == Key(id)
  {
    KeyTwice(AsInt32(id));
    var q, low := id / TWO_32, id % TWO_32;
    assert id == q * TWO_32 + low;
    if low < TWO_31 {
      assert Key(id) == low;
    } else {
      assert Key(id) == TWO_64 - TWO_32 + low;
    }
  }

  // Sign extension loses nothing.
  lemma KeyTwice(n: int32)
    ensures AsInt32(AsUint64(n)) == n
  {
  }

  predicate HasItem(tracks: seq<Messages.QueueTrackRef>, id: uint64) {
    exists j :: 0 <= j < |tracks| && tracks[j].queueItemId == id
  }

  predicate IsSnapshot(e: Event) {
    e.Note? && e.note.Backed? && e.note.messageType == Messages.QUEUE_STATE && e.note.body.QueueStateBody?
  }

  function TracksIn(e: Event): seq<Messages.QueueTrackRef> {
    if IsSnapshot(e) then e.note.body.queueState.tracks else []
  }

  // One update: the item survives exactly when the new queue has its key.
  lemma UpdateExactly(s: State, tracks: seq<Messages.QueueTrackRef>, now: nat)
    requires CurrentTrack(s).Some?
    ensures var s' := AfterQueue(s, tracks, now); var key := Key(CurrentTrack(s).value.queueItemId);
      if HasItem(tracks, key) then
        && s' == s.(queue := tracks, index := s'.index)
        && CurrentTrack(s').Some? && CurrentTrack(s').value.queueItemId == key
      else s' == s.(queue := tracks, index := None, state := Stopped, position := 0, stamp := now)
  {
    var found := FindTrack(tracks, CurrentItemId(s).value);
  }

  // The player is at the start of nothing.
  predicate Idle(s: State) {
    s.state == Stopped && s.position == 0 && s.index.None?
  }

  // Any series of queue snapshots: state, position and record are untouched and the item
  // is still current exactly when every snapshot has it; from the first that lacks it on
  // the player is stopped at position 0 with no track.
  lemma {:induction false} SnapshotSeries(s: State, events: seq<Timed>, rng: Rng)
    requires CurrentTrack(s).Some?
    requires forall i :: 0 <= i < |events| ==> IsSnapshot(events[i].event)
    ensures var id := CurrentTrack(s).value.queueItemId; var s' := Run(s, events, rng);
      if forall i :: 0 <= i < |events| ==> HasItem(TracksIn(events[i].event), Key(id)) then
        && s' == s.(queue := s'.queue, index := s'.index)
        && CurrentTrack(s').Some?
        && CurrentTrack(s').value.queueItemId == if events == [] then id else Key(id)
      else Idle(s')
  {
    hide HasItem, Key, AfterQueue, CurrentTrack, FindTrack;
    if events != [] {
      var front, last := events[..|events| - 1], events[|events| - 1];
      var id := CurrentTrack(s).value.queueItemId;
      var before := Run(s, front, rng);
      var tracks := TracksIn(last.event);
      SnapshotSeries(s, front, rng);
      KeyIsIdentity(id);
      assert Run(s, events, rng) == AfterQueue(before, tracks, last.clock.now);
      if forall i :: 0 <= i < |front| ==> HasItem(TracksIn(front[i].event), Key(id)) {
        UpdateExactly(before, tracks, last.clock.now);
      } else {
        IdleUpdate(before, tracks, last.clock.now);
      }
    }
  }

  lemma IdleUpdate(s: State, tracks: seq<Messages.QueueTrackRef>, now: nat)
    requires s.index.None?
    ensures AfterQueue(s, tracks, now) == s.(queue := tracks)
  {
  }

  // With an id outside the identity range even the player's own queue, sent back to it,
  // stops the track.
  lemma LargeIdLost(s: State, now: nat)
    requires |s.queue| == 1 && s.index == Some(0) && s.queue[0].queueItemId == TWO_31
    ensures Idle(AfterQueue(s, s.queue, now))
  {
    hide FindTrack;
    UpdateExactly(s, s.queue, now);
  }

  // ---- The index ------------------------------------------------------------------------------

  predicate IndexSafe(s: State) {
    s.index.Some? ==> s.index.value < |s.queue|
  }

  // A restored index that the queue does not have.
  predicate BadRestore(s: State, e: Event) {
    && e.Note? && e.note.RestoreState?
    && e.note.updated.state.Some? && e.note.updated.state.value.currentQueueIndex.Some?
    && e.note.updated.state.value.currentQueueIndex.value >= |s.queue|
  }

  // The index stays within the queue through every step but exactly those.
  lemma StepIndexSafe(s: State, e: Event, rng: Rng, clock: Clock)
    requires IndexSafe(s)
    ensures IndexSafe(Step(s, e, rng, clock).s) <==> !BadRestore(s, e)
  {
    hide AfterAsk, ShuffleOn, LoopModeOf;
    match e
    case Ask(c) => AskIndexSafe(s, c, rng, clock);
    case Note(_) =>
  }

  lemma AskIndexSafe(s: State, c: Command, rng: Rng, clock: Clock)
    requires IndexSafe(s)
    ensures IndexSafe(AfterAsk(s, c, rng, clock).s)
  {
    hide Report, Measured, CurrentPosition, TrackOver;
    MeasuredShows(s, rng, clock.now);
    match c
    case AskSetState(cmd) => MeasuredShows(AfterSetState(s, cmd, clock.now), rng, clock.now);
    case AskHeartbeat => MeasuredShows(Ticked(s, rng, clock.now), rng, clock.now);
    case _ =>
  }

  // Over a run from a safe state: safe throughout exactly when no event restores an
  // index the queue of the moment does not have.
  lemma {:induction false} IndexSafeExactly(s: State, events: seq<Timed>, rng: Rng, n: nat)
    requires n <= |events| && IndexSafe(s)
    ensures (forall i :: 0 <= i <= n ==> IndexSafe(At(s, events, rng, i)))
      <==> (forall i :: 0 <= i < n ==> !BadRestore(At(s, events, rng, i), events[i].event))
    decreases n
  {
    hide At, Step, IndexSafe, BadRestore;
    AtEnds(s, events, rng);
    if n > 0 {
      IndexSafeExactly(s, events, rng, n - 1);
      AtNext(s, events, rng, n - 1);
      if forall i :: 0 <= i < n ==> IndexSafe(At(s, events, rng, i)) {
        StepIndexSafe(At(s, events, rng, n - 1), events[n - 1].event, rng, events[n - 1].clock);
      } else {
        assert !(forall i :: 0 <= i <= n - 1 ==> IndexSafe(At(s, events, rng, i)));
      }
    }
  }

  // A restore that comes before the first queue makes the index unsafe.
  lemma EarlyRestoreUnsafe(rng: Rng, clock: Clock)
    ensures var e := Note(RestoreState(Messages.RendererStateUpdated(None, None, Some(Messages.RendererState(
        None, None, None, None, Some(0), None)))));
      && IndexSafe(Initial(0)) && BadRestore(Initial(0), e)
      && !IndexSafe(Step(Initial(0), e, rng, clock).s)
  {
  }

  // Only a track of the queue can be over, so a tick never advances an empty queue.
  lemma TickAdvancesSomething(s: State, rng: Rng, now: nat)
    requires TrackOver(s, rng, now)
    ensures s.queue != [] && s.index.Some? && s.index.value < |s.queue|
  {
  }

  // ---- Playing order -----------------------------------------------------------------------------

  // Advancing once at each of the readings `times`.
  function Advances(s: State, times: seq<nat>): State {
    if times == [] then s else Advance(Advances(s, times[..|times| - 1]), times[|times| - 1])
  }

  lemma RepeatAllCycles(s: State, times: seq<nat>)
    requires s.loopMode == RepeatAll && s.index.Some? && s.index.value < |s.queue|
    ensures var s' := Advances(s, times); var n := |times|;
      s' == s.(index := Some((s.index.value + n) % |s.queue|),
               position := if n == 0 then s.position else 0, stamp := if n == 0 then s.stamp else times[n - 1])
  {
    hide Advances;
    Cycles(s, times);
  }

  function Wrapped(i: nat, len: nat): (r: nat)
    requires len > 0
    ensures r < len
  {
    i % len
  }

  lemma {:induction false} Cycles(s: State, times: seq<nat>)
    requires s.loopMode == RepeatAll && s.index.Some? && s.index.value < |s.queue|
    ensures var s' := Advances(s, times); var n := |times|;
      s' == s.(index := Some(Wrapped(s.index.value + n, |s.queue|)),
               position := if n == 0 then s.position else 0, stamp := if n == 0 then s.stamp else times[n - 1])
  {
    hide Advance, Wrapped;
    var i, len := s.index.value, |s.queue|;
    if times == [] {
      WrappedWithin(i, len);
    } else {
      var n := |times|;
      Cycles(s, times[..n - 1]);
      AdvanceWraps(Advances(s, times[..n - 1]), times[n - 1]);
      WrappedNext(i + n - 1, len);
    }
  }

  lemma AdvanceWraps(s: State, now: nat)
    requires s.loopMode == RepeatAll && s.index.Some? && s.queue != []
    ensures Advance(s, now) == s.(index := Some(Wrapped(s.index.value + 1, |s.queue|)), position := 0, stamp := now)
  {
  }

  lemma WrappedWithin(i: nat, len: nat)
    requires i < len
    ensures Wrapped(i, len) == i
  {
  }

  lemma WrappedNext(i: nat, len: nat)
    requires len > 0
    ensures Wrapped(Wrapped(i, len) + 1, len) == Wrapped(i + 1, len)
  {
    NextIndexWraps(i, len);
  }

  lemma NextIndexWraps(i: nat, len: nat)
    requires len > 0
    ensures (i % len + 1) % len == (i + 1) % len
  {
    var q, r := i / len, i % len;
    Division(i, len);
    if r + 1 < len {
      Divided(r + 1, len, 0, r + 1);
      Divided(i + 1, len, q, r + 1);
    } else {
      Divided(len, len, 1, 0);
      OneMore(q, len);
      Divided(i + 1, len, q + 1, 0);
    }
  }

  lemma Division(i: nat, len: nat)
    requires len > 0
    ensures i == (i / len) * len + i % len
  {
  }

  lemma OneMore(q: nat, len: nat)
    ensures (q + 1) * len == q * len + len
  {
  }

  lemma Divided(x: nat, len: nat, q: nat, r: nat)
    requires r < len && x == q * len + r
    ensures x % len == r
  {
    var d := x / len - q;
    assert d * len == (x / len) * len - q * len;
    assert d * len == r - x % len;
    if d >= 1 {
      MulAtLeast(d, len);
    } else if d <= -1 {
      MulAtLeast(-d, len);
    }
  }

  lemma MulAtLeast(d: nat, len: nat)
    requires d >= 1
    ensures d * len >= len
  {
  }

  // Without repetition the tracks follow one another up to the last, and the advance
  // after that, like every later one, stops at position 0 on it.
  lemma {:induction false} OffPlaysThrough(s: State, times: seq<nat>)
    requires s.loopMode == Off || s.loopMode == LoopUnknown
    requires s.index.Some? && s.index.value < |s.queue|
    ensures var s' := Advances(s, times); var n := |times|; var last := |s.queue| - 1;
      s' == s.(index := Some(if s.index.value + n <= last then s.index.value + n else last),
               state := if s.index.value + n <= last then s.state else Stopped,
               position := if n == 0 then s.position else 0, stamp := if n == 0 then s.stamp else times[n - 1])
  {
    if times != [] {
      OffPlaysThrough(s, times[..|times| - 1]);
    }
  }

  // The next item a report announces is the one that becomes current, exactly when the
  // mode does not repeat the track and the queue goes on.
  lemma AnnouncedComesNext(s: State, now: nat)
    requires s.index.Some? && s.index.value < |s.queue|
    ensures var s' := Advance(s, now);
      && (NextItemId(s).Some? && s'.index == Some(s.index.value + 1)
          <==> s.loopMode != RepeatOne && s.index.value + 1 < |s.queue|)
      && (s'.index == Some(s.index.value + 1) ==> CurrentItemId(s') == NextItemId(s) && s'.state == s.state)
  {
  }

  // ---- Durations -------------------------------------------------------------------------------------

  lemma {:induction false} DurationsKept(s: State, events: seq<Timed>, rng: Rng, i: nat, j: nat, track: uint64)
    requires i <= j <= |events| && track in At(s, events, rng, i).durations
    ensures track in At(s, events, rng, j).durations
    ensures At(s, events, rng, j).durations[track] == At(s, events, rng, i).durations[track]
    decreases j
  {
    hide At, Step;
    if i < j {
      DurationsKept(s, events, rng, i, j - 1, track);
      AtNext(s, events, rng, j - 1);
      StepDurations(At(s, events, rng, j - 1), events[j - 1].event, rng, events[j - 1].clock, track);
    }
  }

  lemma StepDurations(s: State, e: Event, rng: Rng, clock: Clock, track: uint64)
    requires track in s.durations
    ensures var s' := Step(s, e, rng, clock).s; track in s'.durations && s'.durations[track] == s.durations[track]
  {
    hide AfterAsk, AfterQueue, ShuffleOn, LoopModeOf;
    match e
    case Ask(c) => AskDurations(s, c, rng, clock, track);
    case Note(Backed(t, body)) =>
      if t == Messages.QUEUE_STATE && body.QueueStateBody? {
        QueueDurations(s, body.queueState.tracks, clock.now);
      }
    case _ =>
  }

  lemma QueueDurations(s: State, tracks: seq<Messages.QueueTrackRef>, now: nat)
    ensures AfterQueue(s, tracks, now).durations == s.durations
  {
    hide FindTrack, CurrentItemId;
  }

  lemma AskDurations(s: State, c: Command, rng: Rng, clock: Clock, track: uint64)
    requires track in s.durations
    ensures var s' := AfterAsk(s, c, rng, clock).s; track in s'.durations && s'.durations[track] == s.durations[track]
  {
    hide Report, Measured, CurrentPosition, TrackOver, FindTrack;
    MeasuredDurations(s, rng, track);
    match c
    case AskSetState(cmd) => MeasuredDurations(AfterSetState(s, cmd, clock.now), rng, track);
    case AskHeartbeat => MeasuredDurations(Ticked(s, rng, clock.now), rng, track);
    case _ =>
  }

  lemma MeasuredDurations(s: State, rng: Rng, track: uint64)
    requires track in s.durations
    ensures var s' := Measured(s, rng); track in s'.durations && s'.durations[track] == s.durations[track]
  {
  }

  // Once a report has given a track's duration, every later report of that track in the
  // run gives the same one.
  lemma SameDurationReported(s: State, events: seq<Timed>, rng: Rng, i: nat, j: nat)
    requires i < j <= |events|
    requires events[i].event.Ask? && events[i].event.command == AskHeartbeat
    requires At(s, events, rng, i).state.Playing?
    requires var a := CurrentTrack(At(s, events, rng, i)); var b := CurrentTrack(At(s, events, rng, j));
      a.Some? && b.Some? && a.value.trackId.Some? && a.value.trackId == b.value.trackId
    ensures CurrentDuration(At(s, events, rng, j), rng) == CurrentDuration(At(s, events, rng, i), rng)
  {
    hide At, AfterAsk;
    var before := At(s, events, rng, i);
    var track := CurrentTrack(before).value.trackId.value;
    AtNext(s, events, rng, i);
    HeartbeatMeasures(before, rng, events[i].clock);
    DurationsKept(s, events, rng, i + 1, j, track);
  }

  lemma HeartbeatMeasures(s: State, rng: Rng, clock: Clock)
    requires s.state.Playing? && CurrentTrack(s).Some? && CurrentTrack(s).value.trackId.Some?
    ensures var track := CurrentTrack(s).value.trackId.value;
      var s' := AfterAsk(s, AskHeartbeat, rng, clock).s;
      track in s'.durations && CurrentDuration(s, rng) == Some(s'.durations[track])
  {
    hide Report, CurrentPosition, TrackOver, WithDuration, AfterAsk;
    var track := CurrentTrack(s).value.trackId.value;
    var s' := Ticked(s, rng, clock.now);
    assert track in Measured(s, rng).durations && CurrentDuration(s, rng) == Some(Measured(s, rng).durations[track]);
    assert s'.durations == Measured(s, rng).durations;
    MeasuredDurations(s', rng, track);
    HeartbeatLeaves(s, rng, clock);
  }

  lemma HeartbeatLeaves(s: State, rng: Rng, clock: Clock)
    ensures var s' := Ticked(s, rng, clock.now);
      AfterAsk(s, AskHeartbeat, rng, clock).s in {s', Measured(s', rng)}
  {
  }

  // ---- Reports ------------------------------------------------------------------------------------------

  // The place a report gives within the track: its position below its duration.
  predicate WithinTrack(r: Messages.QueueRendererState) {
    r.duration.Some? ==>
      && r.currentPosition.Some? && r.currentPosition.value.value.Some?
      && r.currentPosition.value.value.value < r.duration.value
  }

  // The player has nothing to go on to.
  predicate AtLastTrack(s: State) {
    s.loopMode != RepeatOne && s.loopMode != RepeatAll && s.index.GetOr(0) + 1 >= |s.queue|
  }

  // A heartbeat is answered exactly when it finds the player Playing, unless the last
  // track is over; the answer says Playing, and lies within the track.
  lemma HeartbeatReports(s: State, rng: Rng, clock: Clock)
    ensures var o := AfterAsk(s, AskHeartbeat, rng, clock);
      && o.answer.HeartbeatAnswer?
      && (o.answer.beat.Some? <==> s.state.Playing? && !(PlayerSteps.PlayedOut(s, rng, clock.now) && AtLastTrack(s)))
      && (o.answer.beat.Some? ==> o.answer.beat.value.playingState == Some(2) && WithinTrack(o.answer.beat.value))
  {
    hide Measured, CurrentDuration, Advance, PlayerSteps.PlayedOut;
    PlayerSteps.OverAlike(s, rng, clock.now);
    var m := Measured(s, rng);
    var s' := Ticked(s, rng, clock.now);
    MeasuredShows(s, rng, clock.now);
    MeasuredShows(s', rng, clock.now);
    if s.state.Playing? {
      if TrackOver(s, rng, clock.now) {
        TickAdvancesSomething(s, rng, clock.now);
        AdvanceStops(m, clock.now);
      } else {
        MeasuredTwice(s, rng);
      }
    }
  }

  lemma AdvanceStops(s: State, now: nat)
    requires s.queue != []
    ensures var s' := Advance(s, now);
      s'.position == 0 && s'.stamp == now && s'.state == if AtLastTrack(s) then Stopped else s.state
  {
  }

  lemma MeasuredTwice(s: State, rng: Rng)
    ensures CurrentDuration(Measured(s, rng), rng) == CurrentDuration(s, rng)
  {
  }

  // The answer to a playback command carries the number of the state asked for, and of the
  // state there was when none of the numbers 0 to 3 was; and the position asked for, or
  // else the one shown before.
  lemma SetStateReports(s: State, cmd: Messages.SetState, rng: Rng, clock: Clock)
    requires s.stamp <= clock.now
    ensures var o := AfterAsk(s, AskSetState(cmd), rng, clock);
      && o.answer.StateAnswer?
      && PlayerSteps.Leaves(cmd.playingState, s.state, o.s.state)
      && PlayerSteps.IsNumberOf(o.answer.state.playingState, o.s.state)
      && o.answer.state.currentPosition == Some(Messages.Position(Some(clock.wall), Some(
           if cmd.currentPosition.Some? then cmd.currentPosition.value else CurrentPosition(s, clock.now))))
  {
    hide Measured, FindTrack, CurrentDuration, AfterSetState, CurrentPosition, Report;
    PlayerSteps.SetStateExactly(s, cmd, rng, clock);
    PlayerSteps.ReportExactly(AfterSetState(s, cmd, clock.now), rng, clock);
    SetStateShows(s, cmd, rng, clock.now);
  }

  // The track a playback command leaves current: the first with the key of the item it
  // names, if the queue has one; else the one before, or the first of the queue when the
  // player is to play and had none.
  lemma SetStateTrack(s: State, cmd: Messages.SetState, now: nat)
    ensures var s' := AfterSetState(s, cmd, now);
      && s'.queue == s.queue
      && if cmd.currentQueueItem.Some? && HasItem(s.queue, Key(cmd.currentQueueItem.value.queueItemId)) then
           && s'.index.Some? && s'.index.value < |s.queue|
           && s.queue[s'.index.value].queueItemId == Key(cmd.currentQueueItem.value.queueItemId)
           && forall j :: 0 <= j < s'.index.value ==>
                s.queue[j].queueItemId != Key(cmd.currentQueueItem.value.queueItemId)
         else s'.index == if s'.state.Playing? && s.index.None? && s.queue != [] then Some(0) else s.index
  {
    hide CurrentPosition, RequestedState, HasItem, FindTrack;
    if cmd.currentQueueItem.Some? {
      FindsKey(s.queue, cmd.currentQueueItem.value.queueItemId);
    }
  }

  lemma FindsKey(queue: seq<Messages.QueueTrackRef>, id: uint64)
    ensures FindTrack(queue, AsInt32(id)).Some? <==> HasItem(queue, Key(id))
  {
  }

  // ---- Volume ---------------------------------------------------------------------------------------------

  // The volume last asked for; a request without one asks for 100.
  function LastVolume(start: uint32, events: seq<Timed>): uint32 {
    if events == [] then start
    else
      match events[|events| - 1].event
      case Ask(AskSetVolume(cmd)) => cmd.volume.GetOr(100)
      case _ => LastVolume(start, events[..|events| - 1])
  }

  lemma {:induction false} VolumeHistory(s: State, events: seq<Timed>, rng: Rng)
    ensures Run(s, events, rng).volume == LastVolume(s.volume, events) && Run(s, events, rng).muted == s.muted
  {
    hide Step;
    if events != [] {
      var front, last := events[..|events| - 1], events[|events| - 1];
      VolumeHistory(s, front, rng);
      StepVolume(Run(s, front, rng), last.event, rng, last.clock);
    }
  }

  lemma StepVolume(s: State, e: Event, rng: Rng, clock: Clock)
    ensures var s' := Step(s, e, rng, clock).s;
      && s'.muted == s.muted
      && s'.volume == match e { case Ask(AskSetVolume(cmd)) => cmd.volume.GetOr(100) case _ => s.volume }
  {
    hide AfterAsk, ShuffleOn, LoopModeOf, FindTrack, CurrentItemId;
    match e
    case Ask(c) => AskVolume(s, c, rng, clock);
    case Note(_) =>
  }

  lemma AskVolume(s: State, c: Command, rng: Rng, clock: Clock)
    ensures var s' := AfterAsk(s, c, rng, clock).s;
      && s'.muted == s.muted
      && s'.volume == match c { case AskSetVolume(cmd) => cmd.volume.GetOr(100) case _ => s.volume }
  {
    hide Report, Measured, CurrentPosition, TrackOver, FindTrack;
    MeasuredShows(s, rng, clock.now);
    match c
    case AskSetState(cmd) => MeasuredShows(AfterSetState(s, cmd, clock.now), rng, clock.now);
    case AskHeartbeat => MeasuredShows(Ticked(s, rng, clock.now), rng, clock.now);
    case _ =>
  }
}
