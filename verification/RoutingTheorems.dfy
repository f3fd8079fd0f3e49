// Over every interleaving of HTTP requests, manager steps, users and runners: commands
// and events stay between a device's sessions and the handle they were opened for.
module RoutingTheorems {
  import opened Basics
  import Events
  import opened Routing

  // ---- Each action keeps the invariant ------------------------------------------------------

  lemma {:induction false} SentOverSame(a: seq<Channel>, b: seq<Channel>, cs: seq<nat>)
    requires forall i :: 0 <= i < |cs| ==> cs[i] < |a| && cs[i] < |b| && a[cs[i]].sent == b[cs[i]].sent
    ensures SentOver(a, cs) == SentOver(b, cs)
  {
    if cs != [] {
      SentOverSame(a, b, cs[..|cs| - 1]);
    }
  }

  // Channels already there keep what was sent and whose they are.
  predicate Unsent(s: State, s': State) {
    && |s.channels| <= |s'.channels|
    && forall c :: 0 <= c < |s.channels| ==>
         s'.channels[c].sent == s.channels[c].sent && s'.channels[c].owner == s.channels[c].owner
  }

  // Handles already there keep their cell and what they accepted; new ones have nothing.
  predicate SameHandles(s: State, s': State) {
    && |s.handles| <= |s'.handles|
    && (forall h :: 0 <= h < |s.handles| ==>
          && s'.handles[h].uuid == s.handles[h].uuid && s'.handles[h].cell == s.handles[h].cell
          && s'.handles[h].channels == s.handles[h].channels && s'.handles[h].accepted == s.handles[h].accepted)
    && (forall h :: |s.handles| <= h < |s'.handles| ==>
          s'.handles[h].cell.None? && s'.handles[h].channels == [] && s'.handles[h].accepted == [])
  }

  lemma HandlesStay(s: State, s': State)
    requires HandlesOk(s) && Conserved(s) && Unsent(s, s') && SameHandles(s, s')
    ensures HandlesOk(s') && Conserved(s')
  {
    forall h | 0 <= h < |s'.handles|
      ensures HandleOk(s', h) && s'.handles[h].accepted == SentOver(s'.channels, s'.handles[h].channels)
    {
      if h < |s.handles| {
        assert HandleOk(s, h);
        SentOverSame(s.channels, s'.channels, s.handles[h].channels);
      }
    }
  }

  // Runners that keep their links and lives still receive.
  lemma ReceivedStill(s: State, s': State, c: nat)
    requires Received(s, c) && s'.spawning == s.spawning && |s.runners| <= |s'.runners|
    requires forall q :: 0 <= q < |s.runners| && s.runners[q].link.channel == c ==>
      s'.runners[q].link == s.runners[q].link && s'.runners[q].alive == s.runners[q].alive
    ensures Received(s', c)
  {
    if !(s.spawning.Some? && s.spawning.value.channel == c) {
      var q :| 0 <= q < |s.runners| && s.runners[q].alive && s.runners[q].link.channel == c;
      assert s'.runners[q].link.channel == c;
    }
  }

  // Nothing changes but the device table, the selections, and handles added at the end
  // or given events.
  lemma SessionsStay(s: State, s': State)
    requires RunnersOk(s) && SpawningOk(s) && OpenOk(s) && SameHandles(s, s')
    requires s'.channels == s.channels && s'.runners == s.runners && s'.spawning == s.spawning
    ensures RunnersOk(s') && SpawningOk(s') && OpenOk(s')
  {
    forall r | 0 <= r < |s'.runners| ensures RunnerOk(s', s'.runners[r]) {
      assert RunnerOk(s, s.runners[r]);
    }
    forall c | 0 <= c < |s'.channels| && s'.channels[c].open ensures Received(s', c) {
      ReceivedStill(s, s', c);
    }
  }

  lemma AddKeeps(s: State, uuid: Uuid)
    requires Inv(s)
    ensures Inv(AfterAdd(s, uuid))
  {
    hide HandlesOk, Conserved, RunnersOk, SpawningOk, OpenOk;
    HandlesStay(s, AfterAdd(s, uuid));
    SessionsStay(s, AfterAdd(s, uuid));
  }

  // The device table and the selections.
  lemma TableKeeps(s: State, s': State)
    requires Inv(s)
    requires s' == s.(devices := s'.devices, posting := s'.posting, pending := s'.pending) && DevicesOk(s')
    ensures Inv(s')
  {
    hide HandlesOk, Conserved, RunnersOk, SpawningOk, OpenOk, DevicesOk;
    HandlesStay(s, s');
    SessionsStay(s, s');
  }

  lemma EmitKeeps(s: State, r: nat, e: Events.Event)
    requires Inv(s)
    ensures Inv(AfterEmit(s, r, e))
  {
    hide HandlesOk, Conserved, RunnersOk, SpawningOk, OpenOk;
    HandlesStay(s, AfterEmit(s, r, e));
    SessionsStay(s, AfterEmit(s, r, e));
  }

  lemma HandleKeeps(s: State)
    requires Inv(s)
    ensures Inv(AfterHandle(s))
  {
    if s.pending != [] && s.spawning.None? {
      var sel := s.pending[0];
      var s' := s.(pending := s.pending[1..]);
      TableKeeps(s, s');
      if sel.uuid in s.devices {
        OpeningHandles(s', sel, s.devices[sel.uuid].handle);
        OpeningSessions(s', sel, s.devices[sel.uuid].handle);
      }
    }
  }

  lemma {:induction false} OpeningHandles(s: State, sel: Selection, h: nat)
    requires HandlesOk(s) && Conserved(s) && h < |s.handles|
    ensures HandlesOk(Opening(s, sel, h)) && Conserved(Opening(s, sel, h))
  {
    var s' := Opening(s, sel, h);
    forall k | 0 <= k < |s'.handles|
      ensures HandleOk(s', k) && s'.handles[k].accepted == SentOver(s'.channels, s'.handles[k].channels)
    {
      assert HandleOk(s, k);
      SentOverSame(s.channels, s'.channels, s.handles[k].channels);
      if k == h {
        assert s'.handles[h].channels[..|s'.handles[h].channels| - 1] == s.handles[h].channels;
      }
    }
  }

  lemma OpeningSessions(s: State, sel: Selection, h: nat)
    requires Inv(s) && s.spawning.None?
    requires h < |s.handles| && s.handles[h].uuid == sel.uuid
    ensures var s' := Opening(s, sel, h); RunnersOk(s') && SpawningOk(s') && OpenOk(s')
  {
    hide HandlesOk, Conserved, InboxesOk, DevicesOk;
    var s' := Opening(s, sel, h);
    forall r | 0 <= r < |s'.runners| ensures RunnerOk(s', s'.runners[r]) {
      assert RunnerOk(s, s.runners[r]);
    }
    assert s'.handles[h].channels[|s.handles[h].channels|] == |s.channels|;
    forall d | 0 <= d < |s'.channels| && s'.channels[d].open ensures Received(s', d) {
      if d < |s.channels| {
        assert Received(s, d);
      }
    }
  }

  lemma {:induction false} SpawnedKeeps(s: State, ok: bool)
    requires Inv(s)
    ensures Inv(AfterSpawned(s, ok))
  {
    if s.spawning.Some? {
      HandlesStay(s, AfterSpawned(s, ok));
      SpawnedSessions(s, ok);
      hide HandlesOk, Conserved, RunnersOk, SpawningOk, OpenOk;
    }
  }

  lemma SpawnedSessions(s: State, ok: bool)
    requires RunnersOk(s) && SpawningOk(s) && OpenOk(s) && s.spawning.Some?
    ensures var s' := AfterSpawned(s, ok); RunnersOk(s') && SpawningOk(s') && OpenOk(s')
  {
    var link := s.spawning.value;
    var s' := AfterSpawned(s, ok);
    forall r | 0 <= r < |s'.runners| ensures RunnerOk(s', s'.runners[r]) {
      if r < |s.runners| {
        assert RunnerOk(s, s.runners[r]);
      }
    }
    forall c | 0 <= c < |s'.channels| && s'.channels[c].open ensures Received(s', c) {
      assert Received(s, c);
      if ok && c == link.channel {
        assert s'.runners[|s.runners|].link.channel == c;
      } else {
        var r :| 0 <= r < |s.runners| && s.runners[r].alive && s.runners[r].link.channel == c;
        assert s'.runners[r] == s.runners[r];
      }
    }
  }

  lemma SendKeeps(s: State, h: nat, command: Events.SessionCommand)
    requires Inv(s)
    ensures Inv(AfterSend(s, h, command))
  {
    if SendReply(s, h).Accepted? {
      SendHandles(s, h, command);
      SendSessions(s, h, command);
      hide HandlesOk, Conserved, RunnersOk, SpawningOk, OpenOk;
    }
  }

  lemma SendHandles(s: State, h: nat, command: Events.SessionCommand)
    requires HandlesOk(s) && Conserved(s) && SendReply(s, h).Accepted?
    ensures var s' := AfterSend(s, h, command); HandlesOk(s') && Conserved(s')
  {
    var s' := AfterSend(s, h, command);
    forall k | 0 <= k < |s'.handles|
      ensures HandleOk(s', k) && s'.handles[k].accepted == SentOver(s'.channels, s'.handles[k].channels)
    {
      if k == h {
        SendOwn(s, h, command);
      } else {
        assert HandleOk(s, k) && HandleOk(s, h);
        SentOverSame(s.channels, s'.channels, s.handles[k].channels);
      }
    }
    hide HandleOk, SentOver;
  }

  lemma {:induction false} SendOwn(s: State, h: nat, command: Events.SessionCommand)
    requires HandlesOk(s) && Conserved(s) && SendReply(s, h).Accepted?
    ensures var s' := AfterSend(s, h, command);
      HandleOk(s', h) && s'.handles[h].accepted == SentOver(s'.channels, s'.handles[h].channels)
  {
    assert HandleOk(s, h);
    SentLast(s.channels, s.handles[h].channels, command);
  }

  // A command sent into the last of increasing channels comes last.
  lemma {:induction false} SentLast(channels: seq<Channel>, cs: seq<nat>, command: Events.SessionCommand)
    requires cs != [] && Increasing(cs) && forall i :: 0 <= i < |cs| ==> cs[i] < |channels|
    ensures var c := cs[|cs| - 1];
      SentOver(channels[c := channels[c].(sent := channels[c].sent + [command])], cs)
        == SentOver(channels, cs) + [command]
  {
    var c := cs[|cs| - 1];
    var after := channels[c := channels[c].(sent := channels[c].sent + [command])];
    SentOverSame(channels, after, cs[..|cs| - 1]);
    assert SentOver(after, cs) == SentOver(after, cs[..|cs| - 1]) + after[c].sent;
  }

  lemma SendSessions(s: State, h: nat, command: Events.SessionCommand)
    requires RunnersOk(s) && SpawningOk(s) && OpenOk(s) && SendReply(s, h).Accepted?
    ensures var s' := AfterSend(s, h, command); RunnersOk(s') && SpawningOk(s') && OpenOk(s')
  {
    var s' := AfterSend(s, h, command);
    forall r | 0 <= r < |s'.runners| ensures RunnerOk(s', s'.runners[r]) {
      assert RunnerOk(s, s.runners[r]);
    }
    forall d | 0 <= d < |s'.channels| && s'.channels[d].open ensures Received(s', d) {
      ReceivedStill(s, s', d);
    }
  }

  lemma TakeKeeps(s: State, r: nat)
    requires Inv(s)
    ensures Inv(AfterTake(s, r))
  {
    if AfterTake(s, r) != s {
      HandlesStay(s, AfterTake(s, r));
      TakeSessions(s, r);
      hide HandlesOk, Conserved, RunnersOk, SpawningOk, OpenOk;
    }
  }

  lemma {:induction false} TakeSessions(s: State, r: nat)
    requires RunnersOk(s) && SpawningOk(s) && OpenOk(s)
    ensures var s' := AfterTake(s, r); RunnersOk(s') && SpawningOk(s') && OpenOk(s')
  {
    var s' := AfterTake(s, r);
    forall q | 0 <= q < |s'.runners| ensures RunnerOk(s', s'.runners[q]) {
      TakeRunner(s, r, q);
    }
    forall d | 0 <= d < |s'.channels| && s'.channels[d].open ensures Received(s', d) {
      ReceivedStill(s, s', d);
    }
    hide RunnerOk;
  }

  lemma TakeRunner(s: State, r: nat, q: nat)
    requires RunnersOk(s) && q < |s.runners|
    ensures RunnerOk(AfterTake(s, r), AfterTake(s, r).runners[q])
  {
    assert RunnerOk(s, s.runners[q]);
    if q == r && AfterTake(s, r) != s {
      var ch := s.channels[s.runners[r].link.channel];
      assert ch.sent[..ch.taken + 1] == ch.sent[..ch.taken] + [ch.sent[ch.taken]];
    }
  }

  lemma ExitKeeps(s: State, r: nat)
    requires Inv(s)
    ensures Inv(AfterExit(s, r))
  {
    if Alive(s, r) {
      assert RunnerOk(s, s.runners[r]);
      HandlesStay(s, AfterExit(s, r));
      ExitSessions(s, r);
      hide HandlesOk, Conserved, RunnersOk, SpawningOk, OpenOk;
    }
  }

  lemma ExitSessions(s: State, r: nat)
    requires RunnersOk(s) && SpawningOk(s) && OpenOk(s)
    ensures var s' := AfterExit(s, r); RunnersOk(s') && SpawningOk(s') && OpenOk(s')
  {
    if Alive(s, r) {
      var s' := AfterExit(s, r);
      assert RunnerOk(s, s.runners[r]);
      forall q | 0 <= q < |s'.runners| ensures RunnerOk(s', s'.runners[q]) {
        assert RunnerOk(s, s.runners[q]);
      }
      forall d | 0 <= d < |s'.channels| && s'.channels[d].open ensures Received(s', d) {
        ReceivedStill(s, s', d);
      }
    }
  }

  lemma NextKeeps(s: State, a: Action)
    requires Inv(s)
    ensures Inv(Next(s, a))
  {
    hide Inv, AfterAdd, AfterHandle, AfterSpawned, AfterSend, AfterTake, AfterEmit, AfterExit;
    match a
    case AddDevice(u) => AddKeeps(s, u);
    case HandleSelected => HandleKeeps(s);
    case Spawned(ok) => SpawnedKeeps(s, ok);
    case Send(h, c) => SendKeeps(s, h, c);
    case Take(r) => TakeKeeps(s, r);
    case Emit(r, e) => EmitKeeps(s, r, e);
    case Exit(r) => ExitKeeps(s, r);
    case RemoveDevice(u) => InvDevices(s); TableKeeps(s, s.(devices := s.devices - {u}));
    case Post(sel) => InvDevices(s); TableKeeps(s, AfterPost(s, sel));
    case Enqueue(k) => InvDevices(s); TableKeeps(s, AfterEnqueue(s, k));
  }

  lemma InvDevices(s: State)
    requires Inv(s)
    ensures DevicesOk(s)
  {
  }

  // In every reachable state.
  lemma {:induction false} Reachable(actions: seq<Action>)
    ensures Inv(Run(EMPTY, actions))
  {
    hide Next, Inv;
    if actions == [] {
      EmptyKeeps();
    } else {
      Reachable(actions[..|actions| - 1]);
      NextKeeps(Run(EMPTY, actions[..|actions| - 1]), actions[|actions| - 1]);
    }
  }

  lemma EmptyKeeps()
    ensures Inv(EMPTY)
  {
  }

  // ---- Commands -----------------------------------------------------------------------------

  lemma {:induction false} SentOverPrefix(channels: seq<Channel>, cs: seq<nat>, i: nat)
    requires i <= |cs|
    ensures SentOver(channels, cs[..i]) <= SentOver(channels, cs)
    decreases |cs|
  {
    if i < |cs| {
      SentOverPrefix(channels, cs[..|cs| - 1], i);
      assert cs[..|cs| - 1][..i] == cs[..i];
    } else {
      assert cs[..i] == cs;
    }
  }

  // What was sent into the i-th channel stands in the whole as one piece.
  lemma SentOverAt(channels: seq<Channel>, cs: seq<nat>, i: nat)
    requires i < |cs| && cs[i] < |channels|
    ensures var from := |SentOver(channels, cs[..i])|; var sent := channels[cs[i]].sent;
      && |SentOver(channels, cs[..i + 1])| == from + |sent| <= |SentOver(channels, cs)|
      && SentOver(channels, cs)[from..from + |sent|] == sent
  {
    SentOverPrefix(channels, cs, i + 1);
    assert cs[..i + 1][..i] == cs[..i];
  }

  function PositionOf(cs: seq<nat>, c: nat): (i: nat)
    requires c in cs
    ensures i < |cs| && cs[i] == c
  {
    if cs[0] == c then 0 else 1 + PositionOf(cs[1..], c)
  }

  // Where in the commands its handle accepted those of a session begin.
  function Start(s: State, link: Link): nat
    requires LinkOk(s, link)
  {
    var cs := s.handles[link.handle].channels;
    |SentOver(s.channels, cs[..PositionOf(cs, link.channel)])|
  }

  // The runner's handle is its own device's, and its commands are a stretch of those the
  // handle accepted.
  predicate OwnStretch(s: State, rn: Runner) {
    && LinkOk(s, rn.link) && s.handles[rn.link.handle].uuid == rn.link.uuid
    && var from := Start(s, rn.link); var accepted := s.handles[rn.link.handle].accepted;
      from + |rn.got| <= |accepted| && rn.got == accepted[from..from + |rn.got|]
  }

  // All that `q` got was accepted before all that `r` can get.
  predicate EndsBefore(s: State, q: Runner, r: Runner) {
    LinkOk(s, q.link) && LinkOk(s, r.link) && Start(s, q.link) + |q.got| <= Start(s, r.link)
  }

  lemma Stretch(s: State, r: nat)
    requires Inv(s) && r < |s.runners|
    ensures OwnStretch(s, s.runners[r])
  {
    hide SentOver, HandlesOk, SpawningOk, OpenOk, InboxesOk, DevicesOk;
    var rn := s.runners[r];
    assert RunnerOk(s, rn);
    var cs := s.handles[rn.link.handle].channels;
    var i := PositionOf(cs, rn.link.channel);
    SentOverAt(s.channels, cs, i);
    var accepted, sent, from := s.handles[rn.link.handle].accepted, s.channels[rn.link.channel].sent, Start(s, rn.link);
    assert accepted[from..from + |rn.got|] == accepted[from..from + |sent|][..|rn.got|];
  }

  lemma Apart(s: State, q: nat, r: nat)
    requires Inv(s) && q < |s.runners| && r < |s.runners|
    requires s.runners[q].link.handle == s.runners[r].link.handle
    requires s.runners[q].link.channel < s.runners[r].link.channel
    ensures EndsBefore(s, s.runners[q], s.runners[r])
  {
    hide SentOver, SpawningOk, OpenOk, InboxesOk, DevicesOk, Conserved;
    assert RunnerOk(s, s.runners[q]) && RunnerOk(s, s.runners[r]);
    var h := s.runners[q].link.handle;
    assert HandleOk(s, h);
    var cs := s.handles[h].channels;
    var i, j := PositionOf(cs, s.runners[q].link.channel), PositionOf(cs, s.runners[r].link.channel);
    assert i < j;
    SentOverAt(s.channels, cs, i);
    SentOverPrefix(s.channels, cs[..j], i + 1);
    assert cs[..j][..i + 1] == cs[..i + 1];
  }

  // Two runners of one handle, the session of the first opened before the other's.
  predicate Succeeds(s: State, q: nat, r: nat) {
    && q < |s.runners| && r < |s.runners| && s.runners[q].link.handle == s.runners[r].link.handle
    && s.runners[q].link.channel < s.runners[r].link.channel
  }

  // The routing law. In every reachable state the commands a runner has got are an
  // unbroken stretch of those accepted by a handle of its own device, in the order they
  // were accepted; and of any two runners of one handle, the one whose session was
  // opened first got only commands accepted before the other's. So an accepted command
  // reaches at most one runner, and never another device's.
  lemma CommandsReachOneRunner(actions: seq<Action>)
    ensures var s := Run(EMPTY, actions);
      && (forall r :: 0 <= r < |s.runners| ==> OwnStretch(s, s.runners[r]))
      && (forall q: nat, r: nat :: Succeeds(s, q, r) ==> EndsBefore(s, s.runners[q], s.runners[r]))
      && (forall q: nat, r: nat :: q < r < |s.runners| && s.runners[q].link.handle == s.runners[r].link.handle ==>
            Succeeds(s, q, r) || Succeeds(s, r, q))
  {
    hide Run, Inv, OwnStretch, EndsBefore;
    Reachable(actions);
    var s := Run(EMPTY, actions);
    forall r | 0 <= r < |s.runners| ensures OwnStretch(s, s.runners[r]) {
      Stretch(s, r);
    }
    forall q: nat, r: nat | Succeeds(s, q, r) ensures EndsBefore(s, s.runners[q], s.runners[r]) {
      Apart(s, q, r);
    }
    forall q: nat, r: nat | q < r < |s.runners| && s.runners[q].link.handle == s.runners[r].link.handle
      ensures Succeeds(s, q, r) || Succeeds(s, r, q)
    {
      RunnersApart(s, q, r);
    }
  }

  lemma RunnersApart(s: State, q: nat, r: nat)
    requires Inv(s) && q < |s.runners| && r < |s.runners| && q != r
    ensures s.runners[q].link.channel != s.runners[r].link.channel
  {
  }

  // Nothing accepted is lost on the way into the channels: what a handle accepted is what
  // was sent into its sessions' channels, in the order the sessions were opened.
  lemma AcceptedIsSent(actions: seq<Action>, h: nat)
    requires h < |Run(EMPTY, actions).handles|
    ensures var s := Run(EMPTY, actions);
      s.handles[h].accepted == SentOver(s.channels, s.handles[h].channels) && Increasing(s.handles[h].channels)
  {
    hide Run;
    Reachable(actions);
    assert HandleOk(Run(EMPTY, actions), h);
  }

  // Events arrive at a handle only from runners of its own device, namely those that
  // take their commands from it.
  lemma EventsStayHome(actions: seq<Action>, h: nat, i: nat)
    requires h < |Run(EMPTY, actions).handles| && i < |Run(EMPTY, actions).handles[h].inbox|
    ensures var s := Run(EMPTY, actions); var r := s.handles[h].inbox[i].runner;
      && r < |s.runners| && s.runners[r].link.handle == h && s.runners[r].link.uuid == s.handles[h].uuid
  {
    hide Run;
    Reachable(actions);
    var s := Run(EMPTY, actions);
    assert RunnerOk(s, s.runners[s.handles[h].inbox[i].runner]);
  }

  // ---- Selections ------------------------------------------------------------------------------

  // The handle an action opens a session for: the one registered, at that moment, under
  // the selected device.
  function Opens(s: State, a: Action): Option<nat> {
    if a == HandleSelected && s.pending != [] && s.spawning.None? && s.pending[0].uuid in s.devices
    then Some(s.devices[s.pending[0].uuid].handle) else None
  }

  // The channel made by the latest action that opened a session for handle `h`.
  function LatestChannel(actions: seq<Action>, h: nat): Option<nat> {
    if actions == [] then None
    else
      var front, last := actions[..|actions| - 1], actions[|actions| - 1];
      if Opens(Run(EMPTY, front), last) == Some(h) then Some(|Run(EMPTY, front).channels|) else LatestChannel(front, h)
  }

  // Opening a session gives the sender to the cell of the selected device's handle and
  // the receiver, with that handle's event channel, to the session. No other handle and
  // no runner is touched.
  lemma OpeningPairs(s: State, a: Action)
    requires Inv(s) && Opens(s, a).Some?
    ensures var h := Opens(s, a).value; var s' := Next(s, a); var sel := s.pending[0];
      && h < |s.handles| && s.handles[h].uuid == sel.uuid
      && s'.spawning == Some(Link(sel.uuid, sel.sessionId, h, |s.channels|))
      && s'.handles == s.handles[h := s'.handles[h]] && s'.handles[h].cell == Some(|s.channels|)
      && s'.runners == s.runners && s'.channels[..|s.channels|] == s.channels
  {
    hide HandlesOk, Conserved, RunnersOk, SpawningOk, OpenOk, InboxesOk;
  }

  // No other action changes a cell.
  lemma {:induction false} CellsChangeOnlyThere(s: State, a: Action, h: nat)
    requires Inv(s) && h < |s.handles|
    ensures |s.handles| <= |Next(s, a).handles|
    ensures Next(s, a).handles[h].cell == if Opens(s, a) == Some(h) then Some(|s.channels|) else s.handles[h].cell
    ensures Next(s, a).handles[h].channels
         == s.handles[h].channels + if Opens(s, a) == Some(h) then [|s.channels|] else []
  {
    hide HandlesOk, Conserved, RunnersOk, SpawningOk, OpenOk, InboxesOk;
  }

  lemma NewHandles(s: State, a: Action, h: nat)
    requires Inv(s) && |s.handles| <= h < |Next(s, a).handles|
    ensures Next(s, a).handles[h].cell.None? && Opens(s, a).None?
  {
    hide HandlesOk, Conserved, RunnersOk, SpawningOk, OpenOk, InboxesOk;
  }

  lemma {:induction false} UnknownHandle(actions: seq<Action>, h: nat)
    requires h >= |Run(EMPTY, actions).handles|
    ensures LatestChannel(actions, h).None?
  {
    hide Next, Inv;
    if actions != [] {
      var s, a := Run(EMPTY, actions[..|actions| - 1]), actions[|actions| - 1];
      Reachable(actions[..|actions| - 1]);
      HandlesGrow(s, a);
      UnknownHandle(actions[..|actions| - 1], h);
      if Opens(s, a).Some? {
        OpeningPairs(s, a);
      }
    }
  }

  lemma HandlesGrow(s: State, a: Action)
    ensures |s.handles| <= |Next(s, a).handles|
  {
  }

  // A cell holds the channel of the latest selection handled for it, whatever else has
  // happened since: other devices, other requests, sessions failing or ending.
  lemma {:induction false} CellIsLatest(actions: seq<Action>, h: nat)
    requires h < |Run(EMPTY, actions).handles|
    ensures Run(EMPTY, actions).handles[h].cell == LatestChannel(actions, h)
  {
    hide Next, Inv, Opens;
    if actions != [] {
      var s, a := Run(EMPTY, actions[..|actions| - 1]), actions[|actions| - 1];
      Reachable(actions[..|actions| - 1]);
      if h < |s.handles| {
        CellIsLatest(actions[..|actions| - 1], h);
        CellsChangeOnlyThere(s, a, h);
      } else {
        UnknownHandle(actions[..|actions| - 1], h);
        NewHandles(s, a, h);
      }
    } else {
      assert false;
    }
  }

  // What a user is told: not connected before the first selection of the device was
  // handled, accepted while the latest session is being opened or runs, and session
  // closed when it failed to open or has ended.
  lemma SendReplyExactly(actions: seq<Action>, h: nat)
    requires h < |Run(EMPTY, actions).handles|
    ensures var s := Run(EMPTY, actions); var reply := SendReply(s, h); var c := LatestChannel(actions, h);
      && (reply == NotConnected <==> c.None?)
      && (reply == Accepted <==> c.Some? && Received(s, c.value))
      && reply in {NotConnected, Accepted, SessionGone}
  {
    hide Run, LatestChannel;
    var s := Run(EMPTY, actions);
    Reachable(actions);
    CellIsLatest(actions, h);
    assert HandleOk(s, h);
    var c := s.handles[h].cell;
    if c.Some? && Received(s, c.value) {
      if s.spawning.Some? && s.spawning.value.channel == c.value {
      } else {
        var r :| 0 <= r < |s.runners| && s.runners[r].alive && s.runners[r].link.channel == c.value;
        assert RunnerOk(s, s.runners[r]);
      }
    }
  }

  // ---- Registering again ---------------------------------------------------------------------------

  // The handle's entry is gone from the registry: removed, or replaced by a new one.
  predicate Orphan(s: State, h: nat) {
    h < |s.handles| && forall u :: u in s.devices ==> s.devices[u].handle != h
  }

  // Such a handle never gets another session: its cell stays as it is for good.
  lemma {:induction false} OrphanStays(s: State, actions: seq<Action>, h: nat)
    requires Inv(s) && Orphan(s, h)
    ensures var s' := Run(s, actions);
      && Inv(s') && Orphan(s', h)
      && s'.handles[h].cell == s.handles[h].cell && s'.handles[h].channels == s.handles[h].channels
  {
    hide Next, Inv, Opens;
    if actions != [] {
      var s', a := Run(s, actions[..|actions| - 1]), actions[|actions| - 1];
      OrphanStays(s, actions[..|actions| - 1], h);
      NextKeeps(s', a);
      CellsChangeOnlyThere(s', a, h);
      OrphanNext(s', a, h);
    }
  }

  lemma {:induction false} OrphanNext(s: State, a: Action, h: nat)
    requires Orphan(s, h)
    ensures Orphan(Next(s, a), h) && Opens(s, a) != Some(h)
  {
  }

  lemma ReplacedIsOrphan(s: State, uuid: Uuid)
    requires Inv(s) && uuid in s.devices
    ensures Orphan(Next(s, AddDevice(uuid)), s.devices[uuid].handle)
    ensures Orphan(Next(s, RemoveDevice(uuid)), s.devices[uuid].handle)
  {
    hide HandlesOk, Conserved, RunnersOk, SpawningOk, OpenOk, InboxesOk;
  }

  // ---- Requests and selections -----------------------------------------------------------------------

  // The selections of the requests that named a registered device, in their order.
  function Posted(actions: seq<Action>): seq<Selection> {
    if actions == [] then []
    else
      var front, last := actions[..|actions| - 1], actions[|actions| - 1];
      Posted(front) + (if last.Post? && last.selection.uuid in Run(EMPTY, front).devices then [last.selection] else [])
  }

  // The selections sent to the manager, in their order.
  function Enqueued(actions: seq<Action>): seq<Selection> {
    if actions == [] then []
    else
      var front, last := actions[..|actions| - 1], actions[|actions| - 1];
      var posting := Run(EMPTY, front).posting;
      Enqueued(front) + (if last.Enqueue? && last.request < |posting| then [posting[last.request]] else [])
  }

  // The selections the manager has taken up, whether or not their device was still there.
  function TakenUp(actions: seq<Action>): seq<Selection> {
    if actions == [] then []
    else
      var front, last := actions[..|actions| - 1], actions[|actions| - 1];
      var s := Run(EMPTY, front);
      TakenUp(front) + (if last.HandleSelected? && s.pending != [] && s.spawning.None? then [s.pending[0]] else [])
  }

  // The manager takes selections up in the order they were sent, each once.
  lemma {:induction false} SelectionsInOrder(actions: seq<Action>)
    ensures Enqueued(actions) == TakenUp(actions) + Run(EMPTY, actions).pending
  {
    hide Next;
    if actions != [] {
      var front, last := actions[..|actions| - 1], actions[|actions| - 1];
      SelectionsInOrder(front);
      SelectionsNext(Run(EMPTY, front), last);
    }
  }

  // Every accepted request is sent to the manager once or is still to be sent.
  lemma {:induction false} RequestsAccounted(actions: seq<Action>)
    ensures multiset(Posted(actions)) == multiset(Enqueued(actions)) + multiset(Run(EMPTY, actions).posting)
  {
    hide Next;
    if actions != [] {
      var front, last := actions[..|actions| - 1], actions[|actions| - 1];
      RequestsAccounted(front);
      SelectionsNext(Run(EMPTY, front), last);
    }
  }

  // What an action does to the two queues.
  lemma SelectionsNext(s: State, a: Action)
    ensures var s' := Next(s, a);
      match a
      case Post(sel) => s'.pending == s.pending && s'.posting == s.posting + if sel.uuid in s.devices then [sel] else []
      case Enqueue(k) =>
        if k < |s.posting| then
          && s'.pending == s.pending + [s.posting[k]]
          && multiset(s'.posting) + multiset{s.posting[k]} == multiset(s.posting)
        else s'.pending == s.pending && s'.posting == s.posting
      case HandleSelected =>
        && s'.posting == s.posting
        && s'.pending == if s.pending != [] && s.spawning.None? then s.pending[1..] else s.pending
      case _ => s'.pending == s.pending && s'.posting == s.posting
  {
    if a.Enqueue? && a.request < |s.posting| {
      var k := a.request;
      assert s.posting == s.posting[..k] + [s.posting[k]] + s.posting[k + 1..];
    }
  }

  // The session id of the latest request for `uuid` since it was last registered.
  function LatestSession(actions: seq<Action>, uuid: Uuid): Option<string> {
    if actions == [] then None
    else
      match actions[|actions| - 1]
      case AddDevice(u) => if u == uuid then None else LatestSession(actions[..|actions| - 1], uuid)
      case Post(sel) => if sel.uuid == uuid then Some(sel.sessionId) else LatestSession(actions[..|actions| - 1], uuid)
      case _ => LatestSession(actions[..|actions| - 1], uuid)
  }

  // What a registered device shows as its current session.
  lemma {:induction false} CurrentSessionIsLatest(actions: seq<Action>, uuid: Uuid)
    requires uuid in Run(EMPTY, actions).devices
    ensures Run(EMPTY, actions).devices[uuid].currentSession == LatestSession(actions, uuid)
  {
    hide Next;
    if actions != [] {
      var s, a := Run(EMPTY, actions[..|actions| - 1]), actions[|actions| - 1];
      SessionNext(s, a, uuid);
      if uuid in s.devices {
        CurrentSessionIsLatest(actions[..|actions| - 1], uuid);
      }
    }
  }

  lemma SessionNext(s: State, a: Action, uuid: Uuid)
    requires uuid in Next(s, a).devices
    ensures a == AddDevice(uuid) || uuid in s.devices
    ensures Next(s, a).devices[uuid].currentSession ==
      if a == AddDevice(uuid) then None
      else if a.Post? && a.selection.uuid == uuid then Some(a.selection.sessionId)
      else s.devices[uuid].currentSession
  {
  }
}
