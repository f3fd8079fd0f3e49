// Whole runs of the example player: the position it shows against the position a
// listener would count.
module PlayerPosition {
  import opened Basics
  import Messages
  import opened Events
  import opened Player

  // The state before event `i` of a run.
  function At(s: State, events: seq<Timed>, rng: Rng, i: nat): State
    requires i <= |events|
  {
    Run(s, events[..i], rng)
  }

  lemma AtNext(s: State, events: seq<Timed>, rng: Rng, i: nat)
    requires i < |events|
    ensures At(s, events, rng, i + 1)
         == Step(At(s, events, rng, i), events[i].event, rng, events[i].clock).s
  {
    hide Step;
    assert events[..i + 1][..i] == events[..i];
  }

  lemma AtEnds(s: State, events: seq<Timed>, rng: Rng)
    ensures At(s, events, rng, 0) == s && At(s, events, rng, |events|) == Run(s, events, rng)
  {
    assert events[..|events|] == events;
  }

  // ---- Position -------------------------------------------------------------------------

  // The clock reading before event `n`, and that readings never go back.
  function Reading(s: State, events: seq<Timed>, n: nat): nat
    requires n <= |events|
  {
    if n == 0 then s.stamp else events[n - 1].clock.now
  }

  predicate Ordered(s: State, events: seq<Timed>) {
    forall i :: 0 <= i < |events| ==> Reading(s, events, i) <= events[i].clock.now
  }

  // The position an event sets outright: a seek, a restored position, or the start when
  // the track is over or has left the queue.
  function Jump(s: State, e: Event, rng: Rng, now: nat): Option<uint32> {
    match e
    case Ask(AskSetState(cmd)) => cmd.currentPosition
    case Ask(AskHeartbeat) => if TrackOver(s, rng, now) then Some(0) else None
    case Note(RestoreState(u)) =>
      if u.state.Some? && u.state.value.currentPosition.Some?
      then Some(u.state.value.currentPosition.value.value.GetOr(0)) else Some(0)
    case Note(Backed(t, body)) =>
      if t == Messages.QUEUE_STATE && body.QueueStateBody? && CurrentItemId(s).Some?
         && FindTrack(body.queueState.tracks, CurrentItemId(s).value).None? then Some(0) else None
    case _ => None
  }

  // The position a listener would count, without any width: the value last set, and
  // every millisecond spent Playing since.
  function Ideal(s: State, events: seq<Timed>, rng: Rng, n: nat, t: nat): nat
    requires n <= |events| && Ordered(s, events) && Reading(s, events, n) <= t
  {
    if n == 0 then s.position + (if s.state.Playing? then t - s.stamp else 0)
    else
      var e := events[n - 1];
      var jump := Jump(At(s, events, rng, n - 1), e.event, rng, e.clock.now);
      (if jump.Some? then jump.value else Ideal(s, events, rng, n - 1, e.clock.now))
        + (if At(s, events, rng, n).state.Playing? then t - e.clock.now else 0)
  }

  function Cap(x: nat): uint32 {
    if x > MAX_U32 then MAX_U32 else x
  }

  // After `n` events the player shows at time `t` what the listener counts, capped.
  ghost predicate Shown(s: State, events: seq<Timed>, rng: Rng, n: nat, t: nat)
    requires n <= |events| && Ordered(s, events) && Reading(s, events, n) <= t
  {
    CurrentPosition(At(s, events, rng, n), t) == Cap(Ideal(s, events, rng, n, t))
  }

  // The two ways to lose count. Deactivation stops the clock without recording where it
  // was: that loses what the clock has added, if it has added something and was not at
  // the cap before.
  predicate LosesTime(s: State, e: Event, now: nat) {
    e == Note(Deactivated) && s.state.Playing? && s.position < MAX_U32 && AsUint32(now - s.stamp) > 0
  }

  // And 2^32 ms after the last record the count starts again, unless it is at the cap.
  predicate WrapsAround(s: State, now: nat) {
    s.state.Playing? && now - s.stamp >= TWO_32 && s.position + AsUint32(now - s.stamp) < MAX_U32
  }

  // The position as the fields define it, without the 32-bit cut of the elapsed time.
  function Recorded(s: State, t: nat): uint32
    requires s.stamp <= t
  {
    Cap(s.position + if s.state.Playing? then t - s.stamp else 0)
  }

  lemma ClockExactly(s: State, t: nat)
    requires s.stamp <= t
    ensures CurrentPosition(s, t) == Recorded(s, t) <==> !WrapsAround(s, t)
  {
  }

  // Of all the steps, exactly a losing deactivation changes the position shown other
  // than by setting it.
  lemma StepPosition(s: State, e: Event, rng: Rng, clock: Clock)
    requires s.stamp <= clock.now
    ensures var s' := Step(s, e, rng, clock).s; var now := clock.now;
      (CurrentPosition(s', now) == Jump(s, e, rng, now).GetOr(CurrentPosition(s, now))) <==> !LosesTime(s, e, now)
  {
    hide AfterNote, AfterAsk, CurrentPosition;
    match e
    case Note(n) => NotePosition(s, n, rng, clock.now);
    case Ask(c) => AskPosition(s, c, rng, clock);
  }

  lemma {:induction false} NotePosition(s: State, n: Notification, rng: Rng, now: nat)
    requires s.stamp <= now
    ensures (CurrentPosition(AfterNote(s, n, now), now) == Jump(s, Note(n), rng, now).GetOr(CurrentPosition(s, now)))
      <==> !LosesTime(s, Note(n), now)
  {
    hide FindTrack, ShuffleOn, LoopModeOf, CurrentItemId;
  }

  lemma AskPosition(s: State, c: Command, rng: Rng, clock: Clock)
    requires s.stamp <= clock.now
    ensures CurrentPosition(AfterAsk(s, c, rng, clock).s, clock.now)
         == Jump(s, Ask(c), rng, clock.now).GetOr(CurrentPosition(s, clock.now))
  {
    hide Report, Measured, AfterSetState, TrackOver;
    match c
    case AskSetState(cmd) => SetStateShows(s, cmd, rng, clock.now);
    case AskHeartbeat => HeartbeatShows(s, rng, clock);
    case AskSetActive(_) => MeasuredShows(s, rng, clock.now);
    case AskSetVolume(_) =>
  }

  lemma MeasuredShows(s: State, rng: Rng, now: nat)
    ensures var m := Measured(s, rng); m == s.(durations := m.durations, draws := m.draws)
    ensures CurrentPosition(Measured(s, rng), now) == CurrentPosition(s, now)
  {
  }

  // A playback command shows the position it carries; one that carries none never makes
  // the position jump, whatever it changes.
  lemma {:induction false} SetStateShows(s: State, cmd: Messages.SetState, rng: Rng, now: nat)
    requires s.stamp <= now
    ensures var s' := AfterSetState(s, cmd, now);
      && CurrentPosition(s', now) == cmd.currentPosition.GetOr(CurrentPosition(s, now))
      && CurrentPosition(Measured(s', rng), now) == CurrentPosition(s', now)
  {
    hide FindTrack, Measured, RequestedState;
    MeasuredShows(AfterSetState(s, cmd, now), rng, now);
  }

  lemma HeartbeatShows(s: State, rng: Rng, clock: Clock)
    requires s.stamp <= clock.now
    ensures var s' := AfterAsk(s, AskHeartbeat, rng, clock).s;
      CurrentPosition(s', clock.now) == if TrackOver(s, rng, clock.now) then 0 else CurrentPosition(s, clock.now)
  {
    hide Report, Measured, CurrentDuration;
    var m := Measured(s, rng);
    var s' := Ticked(s, rng, clock.now);
    MeasuredShows(s, rng, clock.now);
    MeasuredShows(s', rng, clock.now);
    MeasuredShows(m, rng, clock.now);
  }

  // A step either records the position at its own reading or leaves the record and the
  // clock running as they were.
  predicate Records(s: State, s': State, now: nat) {
    || s'.stamp == now
    || (s'.stamp == s.stamp && s'.position == s.position && (s'.state == s.state || !s'.state.Playing?))
  }

  lemma StepRecords(s: State, e: Event, rng: Rng, clock: Clock)
    ensures Records(s, Step(s, e, rng, clock).s, clock.now)
  {
    hide FindTrack, ShuffleOn, LoopModeOf, CurrentItemId, AfterAsk;
    match e
    case Note(n) =>
    case Ask(c) => AskRecords(s, c, rng, clock);
  }

  lemma AskRecords(s: State, c: Command, rng: Rng, clock: Clock)
    ensures Records(s, AfterAsk(s, c, rng, clock).s, clock.now)
  {
    hide FindTrack, Report, Measured, CurrentPosition, TrackOver;
    MeasuredShows(s, rng, clock.now);
    match c
    case AskSetState(cmd) => MeasuredShows(AfterSetState(s, cmd, clock.now), rng, clock.now);
    case AskHeartbeat => MeasuredShows(Ticked(s, rng, clock.now), rng, clock.now);
    case _ =>
  }

  // What a step leaves recorded, seen from any later time, when no time is lost.
  lemma StepRecorded(s: State, e: Event, rng: Rng, clock: Clock, t: nat)
    requires s.stamp <= clock.now <= t && !LosesTime(s, e, clock.now) && !WrapsAround(s, clock.now)
    ensures var s' := Step(s, e, rng, clock).s; var now := clock.now;
      && s'.stamp <= now
      && Recorded(s', t) == Cap(Jump(s, e, rng, now).GetOr(Recorded(s, now))
                                + if s'.state.Playing? then t - now else 0)
  {
    hide Step, Jump, WrapsAround, LosesTime;
    StepPosition(s, e, rng, clock);
    StepRecords(s, e, rng, clock);
    ClockExactly(s, clock.now);
  }

  // Event `i` loses no time.
  predicate Keeps(s: State, events: seq<Timed>, rng: Rng, i: nat)
    requires i < |events|
  {
    var now := events[i].clock.now;
    !LosesTime(At(s, events, rng, i), events[i].event, now) && !WrapsAround(At(s, events, rng, i), now)
  }

  // Just before and just after event `i` the player shows what the listener counts.
  ghost predicate ShownAround(s: State, events: seq<Timed>, rng: Rng, i: nat)
    requires i < |events| && Ordered(s, events)
  {
    Shown(s, events, rng, i, events[i].clock.now) && Shown(s, events, rng, i + 1, events[i].clock.now)
  }

  lemma IdealNext(s: State, events: seq<Timed>, rng: Rng, i: nat, t: nat)
    requires i < |events| && Ordered(s, events) && events[i].clock.now <= t
    ensures var now := events[i].clock.now;
      Ideal(s, events, rng, i + 1, t)
        == (if Jump(At(s, events, rng, i), events[i].event, rng, now).Some?
            then Jump(At(s, events, rng, i), events[i].event, rng, now).value else Ideal(s, events, rng, i, now))
           + (if At(s, events, rng, i + 1).state.Playing? then t - now else 0)
  {
    hide At, Jump;
  }

  // While no event loses time the record keeps up with the count.
  lemma {:induction false} RecordFollows(s: State, events: seq<Timed>, rng: Rng, n: nat, t: nat)
    requires n <= |events| && Ordered(s, events) && Reading(s, events, n) <= t
    requires forall i :: 0 <= i < n ==> Keeps(s, events, rng, i)
    ensures At(s, events, rng, n).stamp <= Reading(s, events, n)
    ensures Recorded(At(s, events, rng, n), t) == Cap(Ideal(s, events, rng, n, t))
    decreases n
  {
    hide At, Jump, Step, LosesTime, WrapsAround;
    if n == 0 {
      AtEnds(s, events, rng);
    } else {
      var now := events[n - 1].clock.now;
      RecordFollows(s, events, rng, n - 1, now);
      assert Keeps(s, events, rng, n - 1);
      AtNext(s, events, rng, n - 1);
      StepRecorded(At(s, events, rng, n - 1), events[n - 1].event, rng, events[n - 1].clock, t);
      IdealNext(s, events, rng, n - 1, t);
    }
  }

  lemma ShownIffKept(s: State, events: seq<Timed>, rng: Rng, i: nat)
    requires i < |events| && Ordered(s, events)
    requires forall j :: 0 <= j < i ==> Keeps(s, events, rng, j)
    ensures ShownAround(s, events, rng, i) <==> Keeps(s, events, rng, i)
  {
    hide At, Jump, Step, LosesTime, WrapsAround, CurrentPosition, Recorded, Ideal;
    var before := At(s, events, rng, i);
    var now := events[i].clock.now;
    RecordFollows(s, events, rng, i, now);
    AtNext(s, events, rng, i);
    IdealNext(s, events, rng, i, now);
    ClockExactly(before, now);
    StepPosition(before, events[i].event, rng, events[i].clock);
  }

  // The position law: around every event of a run the player shows the value last set
  // plus all the time spent Playing since, capped, exactly when no event of the run is a
  // losing deactivation or comes too long after the last record.
  lemma {:induction false} PositionExactly(s: State, events: seq<Timed>, rng: Rng, n: nat)
    requires n <= |events| && Ordered(s, events)
    ensures (forall i :: 0 <= i < n ==> ShownAround(s, events, rng, i))
      <==> (forall i :: 0 <= i < n ==> Keeps(s, events, rng, i))
    decreases n
  {
    hide Keeps, ShownAround;
    if n > 0 {
      PositionExactly(s, events, rng, n - 1);
      if forall i :: 0 <= i < n - 1 ==> Keeps(s, events, rng, i) {
        ShownIffKept(s, events, rng, n - 1);
      }
    }
  }

  // And then at any later time, less than 2^32 ms after the record.
  lemma PositionAtAnyTime(s: State, events: seq<Timed>, rng: Rng, t: nat)
    requires Ordered(s, events) && Reading(s, events, |events|) <= t
    requires forall i :: 0 <= i < |events| ==> Keeps(s, events, rng, i)
    requires t - Run(s, events, rng).stamp < TWO_32
    ensures CurrentPosition(Run(s, events, rng), t) == Cap(Ideal(s, events, rng, |events|, t))
  {
    hide Keeps, Run, Ideal;
    AtEnds(s, events, rng);
    RecordFollows(s, events, rng, |events|, t);
    ClockExactly(Run(s, events, rng), t);
  }

  // Five seconds into a track the player is deactivated: it is back where it started.
  lemma DeactivationLosesTime(rng: Rng, track: Messages.QueueTrackRef)
    ensures var s := Initial(0).(state := Playing, queue := [track], index := Some(0));
      var events := [Timed(Note(Deactivated), Clock(5000, 0))];
      && Ordered(s, events) && !Keeps(s, events, rng, 0) && Ideal(s, events, rng, 1, 5000) == 5000
      && CurrentPosition(s, 5000) == 5000 && CurrentPosition(Run(s, events, rng), 5000) == 0
  {
    var s := Initial(0).(state := Playing, queue := [track], index := Some(0));
    var events := [Timed(Note(Deactivated), Clock(5000, 0))];
    AtEnds(s, events, rng);
    assert events[..0] == [];
    assert Run(s, events, rng) == AfterNote(s, Deactivated, 5000);
  }

  // After 2^32 ms of playing the position shown is back at 0, where the count is at the
  // cap.
  lemma LongPlayWrapsAround(rng: Rng)
    ensures var s := Initial(0).(state := Playing);
      && WrapsAround(s, TWO_32) && CurrentPosition(s, TWO_32) == 0
      && Ordered(s, []) && Cap(Ideal(s, [], rng, 0, TWO_32)) == MAX_U32
  {
    AtEnds(Initial(0).(state := Playing), [], rng);
  }
}
