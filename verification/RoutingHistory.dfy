// The routing machine told by its actions: who is registered, which sessions were opened
// and still run, what each handle accepted and received, what each runner got.
module RoutingHistory {
  import opened Basics
  import Events
  import opened Routing
  import opened RoutingTheorems

  function Front(actions: seq<Action>): seq<Action>
    requires actions != []
  {
    actions[..|actions| - 1]
  }

  function Last(actions: seq<Action>): Action
    requires actions != []
  {
    actions[|actions| - 1]
  }

  // ---- Registration -----------------------------------------------------------------------

  // The uuids handles were made for, in the order of their numbers.
  function HandlesMade(actions: seq<Action>): seq<Uuid> {
    if actions == [] then []
    else HandlesMade(Front(actions)) + match Last(actions) { case AddDevice(u) => [u] case _ => [] }
  }

  // The handle registered under `uuid`: the latest made for it, unless it was removed since.
  function Registered(actions: seq<Action>, uuid: Uuid): Option<nat> {
    if actions == [] then None
    else
      match Last(actions)
      case AddDevice(u) => if u == uuid then Some(|HandlesMade(Front(actions))|) else Registered(Front(actions), uuid)
      case RemoveDevice(u) => if u == uuid then None else Registered(Front(actions), uuid)
      case _ => Registered(Front(actions), uuid)
  }

  lemma {:induction false} HandlesAreMade(actions: seq<Action>)
    ensures |Run(EMPTY, actions).handles| == |HandlesMade(actions)|
    ensures forall h :: 0 <= h < |HandlesMade(actions)| ==>
      Run(EMPTY, actions).handles[h].uuid == HandlesMade(actions)[h]
  {
    hide Next;
    if actions != [] {
      HandlesAreMade(Front(actions));
      NextHandles(Run(EMPTY, Front(actions)), Last(actions));
    }
  }

  lemma NextHandles(s: State, a: Action)
    ensures |Next(s, a).handles| == |s.handles| + if a.AddDevice? then 1 else 0
    ensures forall h :: 0 <= h < |s.handles| ==> Next(s, a).handles[h].uuid == s.handles[h].uuid
    ensures a.AddDevice? ==> Next(s, a).handles[|s.handles|] == Handle(a.uuid, None, [], [], [])
  {
  }

  // The device table is what was registered and not removed.
  lemma {:induction false} DevicesAreRegistered(actions: seq<Action>, uuid: Uuid)
    ensures var s := Run(EMPTY, actions);
      && (uuid in s.devices <==> Registered(actions, uuid).Some?)
      && (uuid in s.devices ==> s.devices[uuid].handle == Registered(actions, uuid).value)
  {
    hide Next;
    if actions != [] {
      DevicesAreRegistered(Front(actions), uuid);
      HandlesAreMade(Front(actions));
      NextDevices(Run(EMPTY, Front(actions)), Last(actions), uuid);
    }
  }

  lemma NextDevices(s: State, a: Action, uuid: Uuid)
    ensures var s' := Next(s, a);
      if a == AddDevice(uuid) then uuid in s'.devices && s'.devices[uuid].handle == |s.handles|
      else if a == RemoveDevice(uuid) then uuid !in s'.devices
      else (uuid in s'.devices <==> uuid in s.devices)
           && (uuid in s.devices ==> s'.devices[uuid].handle == s.devices[uuid].handle)
  {
  }

  // ---- Sessions -----------------------------------------------------------------------------

  // The session the manager is opening: that of the latest selection it opened one for,
  // unless the opening has ended since.
  function BeingOpened(actions: seq<Action>): Option<Link> {
    if actions == [] then None
    else
      var s := Run(EMPTY, Front(actions));
      match Last(actions)
      case Spawned(_) => None
      case HandleSelected =>
        if BeingOpened(Front(actions)).None? && s.pending != []
          && Registered(Front(actions), s.pending[0].uuid).Some? then
          var sel := s.pending[0];
          Some(Link(sel.uuid, sel.sessionId, Registered(Front(actions), sel.uuid).value, ChannelsMade(Front(actions))))
        else BeingOpened(Front(actions))
      case _ => BeingOpened(Front(actions))
  }

  // One channel for each session opened.
  function ChannelsMade(actions: seq<Action>): nat {
    if actions == [] then 0
    else
      ChannelsMade(Front(actions))
      + if Last(actions).HandleSelected? && Opens(Run(EMPTY, Front(actions)), HandleSelected).Some? then 1 else 0
  }

  // The sessions that could be opened, in the order of their runners.
  function RunnersMade(actions: seq<Action>): seq<Link> {
    if actions == [] then []
    else
      RunnersMade(Front(actions))
      + if Last(actions) == Spawned(true) && BeingOpened(Front(actions)).Some?
        then [BeingOpened(Front(actions)).value] else []
  }

  // Runner `r` was made and has not exited.
  predicate AliveBy(actions: seq<Action>, r: nat) {
    && actions != [] && r < |RunnersMade(actions)|
    && (r < |RunnersMade(Front(actions))| ==> Last(actions) != Exit(r) && AliveBy(Front(actions), r))
  }

  lemma {:induction false} ChannelsAreMade(actions: seq<Action>)
    ensures |Run(EMPTY, actions).channels| == ChannelsMade(actions)
  {
    hide Next, Opens;
    if actions != [] {
      ChannelsAreMade(Front(actions));
      Reachable(Front(actions));
      NextSpawning(Run(EMPTY, Front(actions)), Last(actions));
    }
  }

  lemma {:induction false} SpawningIsOpened(actions: seq<Action>)
    ensures Run(EMPTY, actions).spawning == BeingOpened(actions)
  {
    hide Next, Inv;
    if actions != [] {
      var s := Run(EMPTY, Front(actions));
      SpawningIsOpened(Front(actions));
      ChannelsAreMade(Front(actions));
      Reachable(Front(actions));
      NextSpawning(s, Last(actions));
      if s.pending != [] {
        DevicesAreRegistered(Front(actions), s.pending[0].uuid);
      }
    }
  }

  lemma NextSpawning(s: State, a: Action)
    requires Inv(s)
    ensures |Next(s, a).channels| == |s.channels| + if a.HandleSelected? && Opens(s, a).Some? then 1 else 0
    ensures Next(s, a).spawning ==
      if a.Spawned? then None
      else if a.HandleSelected? && Opens(s, a).Some? then
        Some(Link(s.pending[0].uuid, s.pending[0].sessionId, Opens(s, a).value, |s.channels|))
      else s.spawning
  {
    hide HandlesOk, Conserved, RunnersOk, SpawningOk, OpenOk, InboxesOk;
  }

  // The runners are those of the sessions that could be opened, each alive until it exits.
  lemma {:induction false} RunnersAreMade(actions: seq<Action>)
    ensures var s := Run(EMPTY, actions); var made := RunnersMade(actions);
      && |s.runners| == |made|
      && forall r :: 0 <= r < |made| ==> s.runners[r].link == made[r] && (s.runners[r].alive <==> AliveBy(actions, r))
  {
    hide Next;
    if actions != [] {
      RunnersAreMade(Front(actions));
      SpawningIsOpened(Front(actions));
      NextRunners(Run(EMPTY, Front(actions)), Last(actions));
    }
  }

  lemma NextRunners(s: State, a: Action)
    ensures var s' := Next(s, a);
      && |s'.runners| == |s.runners| + (if a == Spawned(true) && s.spawning.Some? then 1 else 0)
      && (a == Spawned(true) && s.spawning.Some? ==> s'.runners[|s.runners|] == Runner(s.spawning.value, true, []))
      && (forall r :: 0 <= r < |s.runners| ==>
            s'.runners[r].link == s.runners[r].link
            && (s'.runners[r].alive <==> s.runners[r].alive && a != Exit(r)))
  {
  }

  // ---- Events -----------------------------------------------------------------------------------

  // What reaches the user of handle `h`: the events that runners of its sessions emit
  // while alive, in the order in which they emit them.
  function InboxBy(actions: seq<Action>, h: nat): seq<Delivery> {
    if actions == [] then []
    else
      InboxBy(Front(actions), h)
      + match Last(actions) {
          case Emit(r, e) =>
            if AliveBy(Front(actions), r) && r < |RunnersMade(Front(actions))|
              && RunnersMade(Front(actions))[r].handle == h then [Delivery(r, e)] else []
          case _ => []
        }
  }

  lemma {:induction false} InboxExactly(actions: seq<Action>, h: nat)
    requires h < |Run(EMPTY, actions).handles|
    ensures Run(EMPTY, actions).handles[h].inbox == InboxBy(actions, h)
  {
    hide Next, Inv;
    if actions != [] {
      var s := Run(EMPTY, Front(actions));
      Reachable(Front(actions));
      RunnersAreMade(Front(actions));
      NextInbox(s, Last(actions), h);
      NextHandles(s, Last(actions));
      if h < |s.handles| {
        InboxExactly(Front(actions), h);
      } else {
        NothingReceived(Front(actions), h);
        HandlesOfRunners(s);
      }
    }
  }

  lemma HandlesOfRunners(s: State)
    requires Inv(s)
    ensures forall r :: 0 <= r < |s.runners| ==> s.runners[r].link.handle < |s.handles|
  {
    hide HandlesOk, Conserved, SpawningOk, OpenOk, InboxesOk, DevicesOk;
    forall r | 0 <= r < |s.runners| ensures s.runners[r].link.handle < |s.handles| {
      assert RunnerOk(s, s.runners[r]);
    }
  }

  lemma {:induction false} NothingReceived(actions: seq<Action>, h: nat)
    requires h >= |Run(EMPTY, actions).handles|
    ensures InboxBy(actions, h) == []
  {
    hide Next, Inv;
    if actions != [] {
      var s := Run(EMPTY, Front(actions));
      Reachable(Front(actions));
      NextHandles(s, Last(actions));
      NothingReceived(Front(actions), h);
      RunnersAreMade(Front(actions));
      HandlesOfRunners(s);
    }
  }

  lemma NextInbox(s: State, a: Action, h: nat)
    requires Inv(s) && h < |Next(s, a).handles|
    ensures Next(s, a).handles[h].inbox ==
      (if h < |s.handles| then s.handles[h].inbox else [])
      + if a.Emit? && Alive(s, a.runner) && s.runners[a.runner].link.handle == h then
           [Delivery(a.runner, a.event)]
         else []
  {
    hide HandlesOk, Conserved, SpawningOk, OpenOk, InboxesOk, RunnersOk;
    HandlesOfRunners(s);
  }

  // The events of one runner in its handle's inbox.
  function Of(inbox: seq<Delivery>, r: nat): seq<Events.Event> {
    if inbox == [] then []
    else Of(inbox[..|inbox| - 1], r) + if inbox[|inbox| - 1].runner == r then [inbox[|inbox| - 1].event] else []
  }

  // The events runner `r` emits while alive.
  function EmittedBy(actions: seq<Action>, r: nat): seq<Events.Event> {
    if actions == [] then []
    else
      EmittedBy(Front(actions), r)
      + match Last(actions) {
          case Emit(q, e) => if q == r && AliveBy(Front(actions), r) then [e] else []
          case _ => []
        }
  }

  // They arrive at its handle in order, one for one.
  lemma {:induction false} EventsArrive(actions: seq<Action>, r: nat)
    requires r < |RunnersMade(actions)|
    ensures Of(InboxBy(actions, RunnersMade(actions)[r].handle), r) == EmittedBy(actions, r)
  {
    hide Run, BeingOpened;
    if actions != [] {
      var h := RunnersMade(actions)[r].handle;
      var before := InboxBy(Front(actions), h);
      if r < |RunnersMade(Front(actions))| {
        EventsArrive(Front(actions), r);
      } else {
        NotYet(Front(actions), r, h);
      }
      if InboxBy(actions, h) != before {
        assert InboxBy(actions, h)[..|InboxBy(actions, h)| - 1] == before;
      }
    }
  }

  lemma {:induction false} NotYet(actions: seq<Action>, r: nat, h: nat)
    requires r >= |RunnersMade(actions)|
    ensures Of(InboxBy(actions, h), r) == [] && EmittedBy(actions, r) == []
  {
    hide Run, BeingOpened;
    if actions != [] {
      var before := InboxBy(Front(actions), h);
      NotYet(Front(actions), r, h);
      if InboxBy(actions, h) != before {
        assert InboxBy(actions, h)[..|InboxBy(actions, h)| - 1] == before;
      }
    }
  }

  // ---- Commands ------------------------------------------------------------------------------------

  // Channel `c` has its receiver: its session is being opened or runs.
  predicate Attended(actions: seq<Action>, c: nat) {
    || (BeingOpened(actions).Some? && BeingOpened(actions).value.channel == c)
    || exists r :: 0 <= r < |RunnersMade(actions)| && AliveBy(actions, r) && RunnersMade(actions)[r].channel == c
  }

  // A command sent through handle `h` now is accepted: its latest session is there.
  predicate Accepts(actions: seq<Action>, h: nat) {
    LatestChannel(actions, h).Some? && Attended(actions, LatestChannel(actions, h).value)
  }

  lemma {:induction false} AcceptsExactly(actions: seq<Action>, h: nat)
    ensures SendReply(Run(EMPTY, actions), h).Accepted? <==> h < |Run(EMPTY, actions).handles| && Accepts(actions, h)
  {
    hide Run, LatestChannel, BeingOpened, RunnersMade, AliveBy;
    if h < |Run(EMPTY, actions).handles| {
      SendReplyExactly(actions, h);
      RunnersAreMade(actions);
      SpawningIsOpened(actions);
    }
  }

  // The commands handle `h` accepts.
  function AcceptedBy(actions: seq<Action>, h: nat): seq<Events.SessionCommand> {
    if actions == [] then []
    else
      AcceptedBy(Front(actions), h)
      + match Last(actions) {
          case Send(k, c) => if k == h && Accepts(Front(actions), h) then [c] else []
          case _ => []
        }
  }

  // The commands sent into channel `c`: those accepted while it was the latest of its handle.
  function SentInto(actions: seq<Action>, c: nat): seq<Events.SessionCommand> {
    if actions == [] then []
    else
      SentInto(Front(actions), c)
      + match Last(actions) {
          case Send(h, x) =>
            if LatestChannel(Front(actions), h) == Some(c) && Accepts(Front(actions), h) then [x] else []
          case _ => []
        }
  }

  lemma {:induction false} AcceptedExactly(actions: seq<Action>, h: nat)
    requires h < |Run(EMPTY, actions).handles|
    ensures Run(EMPTY, actions).handles[h].accepted == AcceptedBy(actions, h)
  {
    hide Next, Accepts, SendReply;
    if actions != [] {
      var s := Run(EMPTY, Front(actions));
      NextAccepted(s, Last(actions), h);
      NextHandles(s, Last(actions));
      AcceptsExactly(Front(actions), h);
      if h < |s.handles| {
        AcceptedExactly(Front(actions), h);
      } else {
        NothingAccepted(Front(actions), h);
      }
    }
  }

  lemma {:induction false} NothingAccepted(actions: seq<Action>, h: nat)
    requires h >= |Run(EMPTY, actions).handles|
    ensures AcceptedBy(actions, h) == [] && !Accepts(actions, h)
  {
    hide Next, Attended;
    UnknownHandle(actions, h);
    if actions != [] {
      NextHandles(Run(EMPTY, Front(actions)), Last(actions));
      NothingAccepted(Front(actions), h);
    }
  }

  lemma NextAccepted(s: State, a: Action, h: nat)
    requires h < |Next(s, a).handles|
    ensures Next(s, a).handles[h].accepted ==
      (if h < |s.handles| then s.handles[h].accepted else [])
      + if a.Send? && a.handle == h && SendReply(s, h).Accepted? then [a.command] else []
  {
  }

  lemma {:induction false} ChannelsExactly(actions: seq<Action>, c: nat)
    requires c < |Run(EMPTY, actions).channels|
    ensures Run(EMPTY, actions).channels[c].sent == SentInto(actions, c)
  {
    hide Next, Accepts, SendReply, Inv, LatestChannel;
    if actions != [] {
      var s, a := Run(EMPTY, Front(actions)), Last(actions);
      Reachable(Front(actions));
      NextSent(s, a, c);
      if a.Send? {
        AcceptsExactly(Front(actions), a.handle);
        if a.handle < |s.handles| {
          CellIsLatest(Front(actions), a.handle);
        } else {
          NothingAccepted(Front(actions), a.handle);
        }
      }
      if c < |s.channels| {
        ChannelsExactly(Front(actions), c);
      } else {
        NothingSent(Front(actions), c);
      }
    }
  }

  lemma {:induction false} NothingSent(actions: seq<Action>, c: nat)
    requires c >= |Run(EMPTY, actions).channels|
    ensures SentInto(actions, c) == []
  {
    hide Next, Accepts, SendReply, Inv, LatestChannel;
    if actions != [] {
      var s, a := Run(EMPTY, Front(actions)), Last(actions);
      Reachable(Front(actions));
      NextSpawning(s, a);
      NothingSent(Front(actions), c);
      if a.Send? {
        AcceptsExactly(Front(actions), a.handle);
        if a.handle < |s.handles| {
          CellIsLatest(Front(actions), a.handle);
          CellKnown(s, a.handle);
        } else {
          NothingAccepted(Front(actions), a.handle);
        }
      }
    }
  }

  lemma CellKnown(s: State, h: nat)
    requires Inv(s) && h < |s.handles|
    ensures s.handles[h].cell.Some? ==> s.handles[h].cell.value < |s.channels|
  {
    hide Conserved, RunnersOk, SpawningOk, OpenOk, InboxesOk, DevicesOk;
    assert HandleOk(s, h);
  }

  lemma NextSent(s: State, a: Action, c: nat)
    requires Inv(s) && c < |Next(s, a).channels|
    ensures Next(s, a).channels[c].sent ==
      (if c < |s.channels| then s.channels[c].sent else [])
      + if a.Send? && SendReply(s, a.handle).Accepted? && s.handles[a.handle].cell == Some(c) then [a.command] else []
  {
    hide HandlesOk, Conserved, SpawningOk, OpenOk, InboxesOk, RunnersOk, DevicesOk;
  }

  // The commands runner `r` gets: at each take, while alive, the next of its channel, if
  // there is one.
  function GotBy(actions: seq<Action>, r: nat): seq<Events.SessionCommand> {
    if actions == [] then []
    else
      var before := GotBy(Front(actions), r);
      if Last(actions) == Take(r) && AliveBy(Front(actions), r) && r < |RunnersMade(Front(actions))|
      then before + Following(SentInto(Front(actions), RunnersMade(Front(actions))[r].channel), |before|) else before
  }

  function Following(sent: seq<Events.SessionCommand>, n: nat): seq<Events.SessionCommand> {
    if n < |sent| then [sent[n]] else []
  }

  lemma {:induction false} GotExactly(actions: seq<Action>, r: nat)
    requires r < |Run(EMPTY, actions).runners|
    ensures Run(EMPTY, actions).runners[r].got == GotBy(actions, r)
  {
    hide Next, SentInto, RunnersMade, AliveBy, Inv;
    if actions != [] {
      var s, a := Run(EMPTY, Front(actions)), Last(actions);
      Reachable(Front(actions));
      RunnersAreMade(Front(actions));
      NextGot(s, a, r);
      if r < |s.runners| {
        GotExactly(Front(actions), r);
        RunnerChannel(s, r);
        ChannelsExactly(Front(actions), s.runners[r].link.channel);
      } else {
        NothingGot(Front(actions), r);
      }
    }
  }

  lemma RunnerChannel(s: State, r: nat)
    requires Inv(s) && r < |s.runners|
    ensures s.runners[r].link.channel < |s.channels|
  {
    hide HandlesOk, Conserved, SpawningOk, OpenOk, InboxesOk, DevicesOk;
    assert RunnerOk(s, s.runners[r]);
  }

  lemma {:induction false} NothingGot(actions: seq<Action>, r: nat)
    requires r >= |Run(EMPTY, actions).runners|
    ensures GotBy(actions, r) == []
  {
    hide Next, SentInto, AliveBy, BeingOpened;
    if actions != [] {
      NextRunners(Run(EMPTY, Front(actions)), Last(actions));
      RunnersAreMade(Front(actions));
      NothingGot(Front(actions), r);
    }
  }

  lemma NextGot(s: State, a: Action, r: nat)
    requires Inv(s) && r < |Next(s, a).runners|
    ensures r < |s.runners| ==> s.runners[r].link.channel < |s.channels|
    ensures Next(s, a).runners[r].got ==
      if r >= |s.runners| then []
      else if a == Take(r) && s.runners[r].alive then
        s.runners[r].got + Following(s.channels[s.runners[r].link.channel].sent, |s.runners[r].got|)
      else s.runners[r].got
  {
    hide HandlesOk, Conserved, SpawningOk, OpenOk, InboxesOk, DevicesOk;
    if r < |s.runners| {
      assert RunnerOk(s, s.runners[r]);
    }
  }
}
