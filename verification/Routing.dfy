// Many devices and repeated sessions: the device registry, the selections made over
// HTTP, the manager that opens a session for each, the handles users hold, and the
// runners. One action is one step that runs without interruption.
module Routing {
  import opened Basics
  import Events

  // A device's entry in the registry. Its event channel and its command cell are made
  // together with the handle given to the user, so the handle's number stands for both.
  datatype Entry = Entry(handle: nat, currentSession: Option<string>)

  datatype Delivery = Delivery(runner: nat, event: Events.Event)

  // A user's handle: the shared cell holds the channel that commands go to. The rest is
  // a log: every channel the cell has held, every command accepted, every event received.
  datatype Handle = Handle(
    uuid: Uuid, cell: Option<nat>, channels: seq<nat>, accepted: seq<Events.SessionCommand>, inbox: seq<Delivery>)

  // A command channel: what was sent into it, how much of that was taken out, and
  // whether its receiving end still exists. `owner` logs the handle it was made for.
  datatype Channel = Channel(owner: nat, open: bool, sent: seq<Events.SessionCommand>, taken: nat)

  datatype Selection = Selection(uuid: Uuid, sessionId: string)

  // What `spawn_session` is given, besides the credentials.
  datatype Link = Link(uuid: Uuid, sessionId: string, handle: nat, channel: nat)

  datatype Runner = Runner(link: Link, alive: bool, got: seq<Events.SessionCommand>)

  datatype State = State(
    devices: map<Uuid, Entry>, handles: seq<Handle>, channels: seq<Channel>,
    posting: seq<Selection>,    // HTTP handlers that have still to send their selection
    pending: seq<Selection>,    // the selection channel
    spawning: Option<Link>,     // the session the manager is opening
    runners: seq<Runner>)

  const EMPTY := State(map[], [], [], [], [], None, [])

  datatype Action =
    | AddDevice(uuid: Uuid)
    | RemoveDevice(uuid: Uuid)
    | Post(selection: Selection)   // the request, up to its releasing the device table
    | Enqueue(request: nat)        // the rest of it
    | HandleSelected               // the manager, up to opening the session
    | Spawned(ok: bool)            // the session is open, or could not be opened
    | Send(handle: nat, command: Events.SessionCommand)
    | Take(runner: nat)
    | Emit(runner: nat, event: Events.Event)
    | Exit(runner: nat)

  datatype Reply = Done | NotFound | Accepted | NotConnected | SessionGone

  // ---- Actions ----------------------------------------------------------------------------

  function AfterAdd(s: State, uuid: Uuid): State {
    s.(devices := s.devices[uuid := Entry(|s.handles|, None)],
       handles := s.handles + [Handle(uuid, None, [], [], [])])
  }

  function AfterPost(s: State, sel: Selection): State {
    if sel.uuid !in s.devices then s
    else s.(devices := s.devices[sel.uuid := s.devices[sel.uuid].(currentSession := Some(sel.sessionId))],
            posting := s.posting + [sel])
  }

  function AfterEnqueue(s: State, k: nat): State {
    if k >= |s.posting| then s
    else s.(posting := s.posting[..k] + s.posting[k + 1..], pending := s.pending + [s.posting[k]])
  }

  // A new channel for the device's handle: its sender goes into the cell, its receiver
  // to the session.
  function Opening(s: State, sel: Selection, h: nat): State
    requires h < |s.handles|
  {
    var c := |s.channels|;
    s.(handles := s.handles[h := s.handles[h].(cell := Some(c), channels := s.handles[h].channels + [c])],
       channels := s.channels + [Channel(h, true, [], 0)],
       spawning := Some(Link(sel.uuid, sel.sessionId, h, c)))
  }

  function AfterHandle(s: State): State {
    if s.pending == [] || s.spawning.Some? then s
    else
      var sel := s.pending[0];
      var s' := s.(pending := s.pending[1..]);
      if sel.uuid in s.devices && s.devices[sel.uuid].handle < |s.handles|
      then Opening(s', sel, s.devices[sel.uuid].handle) else s'
  }

  function Closed(s: State, c: nat): State {
    if c < |s.channels| then s.(channels := s.channels[c := s.channels[c].(open := false)]) else s
  }

  // A session that cannot be opened drops its receiver.
  function AfterSpawned(s: State, ok: bool): State {
    match s.spawning
    case None => s
    case Some(link) =>
      if ok then s.(spawning := None, runners := s.runners + [Runner(link, true, [])])
      else Closed(s.(spawning := None), link.channel)
  }

  function SendReply(s: State, h: nat): Reply {
    if h >= |s.handles| || s.handles[h].cell.None? then NotConnected
    else
      var c := s.handles[h].cell.value;
      if c < |s.channels| && s.channels[c].open then Accepted else SessionGone
  }

  function AfterSend(s: State, h: nat, command: Events.SessionCommand): State {
    if !SendReply(s, h).Accepted? then s
    else
      var c := s.handles[h].cell.value;
      s.(handles := s.handles[h := s.handles[h].(accepted := s.handles[h].accepted + [command])],
         channels := s.channels[c := s.channels[c].(sent := s.channels[c].sent + [command])])
  }

  predicate Alive(s: State, r: nat) {
    r < |s.runners| && s.runners[r].alive
  }

  function AfterTake(s: State, r: nat): State {
    if !Alive(s, r) || s.runners[r].link.channel >= |s.channels| then s
    else
      var c := s.runners[r].link.channel;
      var ch := s.channels[c];
      if ch.taken >= |ch.sent| then s
      else s.(channels := s.channels[c := ch.(taken := ch.taken + 1)],
              runners := s.runners[r := s.runners[r].(got := s.runners[r].got + [ch.sent[ch.taken]])])
  }

  function AfterEmit(s: State, r: nat, e: Events.Event): State {
    if !Alive(s, r) || s.runners[r].link.handle >= |s.handles| then s
    else
      var h := s.runners[r].link.handle;
      s.(handles := s.handles[h := s.handles[h].(inbox := s.handles[h].inbox + [Delivery(r, e)])])
  }

  function AfterExit(s: State, r: nat): State {
    if !Alive(s, r) then s
    else Closed(s.(runners := s.runners[r := s.runners[r].(alive := false)]), s.runners[r].link.channel)
  }

  function Next(s: State, a: Action): State {
    match a
    case AddDevice(u) => AfterAdd(s, u)
    case RemoveDevice(u) => s.(devices := s.devices - {u})
    case Post(sel) => AfterPost(s, sel)
    case Enqueue(k) => AfterEnqueue(s, k)
    case HandleSelected => AfterHandle(s)
    case Spawned(ok) => AfterSpawned(s, ok)
    case Send(h, c) => AfterSend(s, h, c)
    case Take(r) => AfterTake(s, r)
    case Emit(r, e) => AfterEmit(s, r, e)
    case Exit(r) => AfterExit(s, r)
  }

  // Any interleaving.
  function Run(s: State, actions: seq<Action>): State {
    if actions == [] then s else Next(Run(s, actions[..|actions| - 1]), actions[|actions| - 1])
  }

  // ---- What every action keeps -----------------------------------------------------------------

  // Every entry's handle belongs to the entry's device.
  predicate DevicesOk(s: State) {
    forall u :: u in s.devices ==> s.devices[u].handle < |s.handles| && s.handles[s.devices[u].handle].uuid == u
  }

  predicate Increasing(cs: seq<nat>) {
    forall i, j :: 0 <= i < j < |cs| ==> cs[i] < cs[j]
  }

  // A cell holds the latest of the channels made for it.
  predicate HandleOk(s: State, h: nat)
    requires h < |s.handles|
  {
    var hd := s.handles[h];
    && Increasing(hd.channels)
    && (forall i :: 0 <= i < |hd.channels| ==> hd.channels[i] < |s.channels| && s.channels[hd.channels[i]].owner == h)
    && hd.cell == (if hd.channels == [] then None else Some(hd.channels[|hd.channels| - 1]))
  }

  predicate HandlesOk(s: State) {
    forall h :: 0 <= h < |s.handles| ==> HandleOk(s, h)
  }

  // What was sent into the channels `cs`, one after the other.
  function SentOver(channels: seq<Channel>, cs: seq<nat>): seq<Events.SessionCommand> {
    if cs == [] then []
    else
      var c := cs[|cs| - 1];
      SentOver(channels, cs[..|cs| - 1]) + (if c < |channels| then channels[c].sent else [])
  }

  // No accepted command is lost, repeated, reordered or moved to another handle.
  predicate Conserved(s: State) {
    forall h :: 0 <= h < |s.handles| ==> s.handles[h].accepted == SentOver(s.channels, s.handles[h].channels)
  }

  // A session's channel was made for its handle, and the handle belongs to its device.
  predicate LinkOk(s: State, link: Link) {
    && link.handle < |s.handles| && s.handles[link.handle].uuid == link.uuid
    && link.channel < |s.channels| && s.channels[link.channel].owner == link.handle
    && link.channel in s.handles[link.handle].channels
  }

  predicate RunnerOk(s: State, r: Runner) {
    && LinkOk(s, r.link)
    && var ch := s.channels[r.link.channel];
      r.alive == ch.open && ch.taken <= |ch.sent| && r.got == ch.sent[..ch.taken]
  }

  predicate RunnersOk(s: State) {
    && (forall r :: 0 <= r < |s.runners| ==> RunnerOk(s, s.runners[r]))
    && (forall q, r :: 0 <= q < r < |s.runners| ==> s.runners[q].link.channel != s.runners[r].link.channel)
  }

  // The session being opened has its channel to itself, untouched.
  predicate SpawningOk(s: State) {
    s.spawning.Some? ==>
      && LinkOk(s, s.spawning.value)
      && s.channels[s.spawning.value.channel].open && s.channels[s.spawning.value.channel].taken == 0
      && forall r :: 0 <= r < |s.runners| ==> s.runners[r].link.channel != s.spawning.value.channel
  }

  // An open channel has someone at its receiving end.
  predicate OpenOk(s: State) {
    forall c :: 0 <= c < |s.channels| && s.channels[c].open ==> Received(s, c)
  }

  predicate Received(s: State, c: nat) {
    || (s.spawning.Some? && s.spawning.value.channel == c)
    || exists r :: 0 <= r < |s.runners| && s.runners[r].alive && s.runners[r].link.channel == c
  }

  // Events reach a handle only from the sessions of its own device, those that take
  // their commands from it.
  predicate InboxesOk(s: State) {
    forall h, i :: 0 <= h < |s.handles| && 0 <= i < |s.handles[h].inbox| ==>
      var r := s.handles[h].inbox[i].runner; r < |s.runners| && s.runners[r].link.handle == h
  }

  ghost predicate Inv(s: State) {
    && DevicesOk(s) && HandlesOk(s) && Conserved(s) && RunnersOk(s) && SpawningOk(s) && OpenOk(s) && InboxesOk(s)
  }
}
