// The registry, the manager, the handles and the channels as fields changed in place,
// refining the actions of module Routing.
module SessionManager {
  import opened Basics
  import Events
  import opened Routing
  import RoutingTheorems

  class SessionManager {
    var devices: map<Uuid, Entry>
    var handles: seq<Handle>
    var channels: seq<Channel>
    var posting: seq<Selection>
    var pending: seq<Selection>
    var spawning: Option<Link>
    var runners: seq<Runner>

    ghost function St(): State
      reads this
    {
      State(devices, handles, channels, posting, pending, spawning, runners)
    }

    ghost predicate Valid()
      reads this
    {
      Inv(St())
    }

    constructor ()
      ensures St() == EMPTY && Valid()
    {
      devices, handles, channels, posting, pending, spawning, runners := map[], [], [], [], [], None, [];
      new;
      RoutingTheorems.EmptyKeeps();
    }

    // Registering under a uuid that is taken replaces the entry, not the old handle.
    method AddDevice(uuid: Uuid) returns (handle: nat)
      requires Valid()
      modifies this
      ensures Valid() && St() == AfterAdd(old(St()), uuid)
      ensures handle == |old(handles)| && devices[uuid].handle == handle
    {
      RoutingTheorems.NextKeeps(St(), Action.AddDevice(uuid));
      hide Inv;
      handle := |handles|;
      handles := handles + [Handle(uuid, None, [], [], [])];
      devices := devices[uuid := Entry(handle, None)];
    }

    method RemoveDevice(uuid: Uuid)
      requires Valid()
      modifies this`devices
      ensures Valid() && St() == Next(old(St()), Action.RemoveDevice(uuid))
    {
      RoutingTheorems.NextKeeps(St(), Action.RemoveDevice(uuid));
      hide Inv;
      if uuid in devices {
        devices := devices - {uuid};
      }
      assert devices == old(devices) - {uuid};
    }

    // The HTTP request, up to its releasing the table.
    method ConnectToQconnect(uuid: Uuid, sessionId: string) returns (reply: Reply)
      requires Valid()
      modifies this`devices, this`posting
      ensures Valid() && St() == AfterPost(old(St()), Selection(uuid, sessionId))
      ensures reply == NotFound <==> uuid !in old(devices)
    {
      RoutingTheorems.NextKeeps(St(), Post(Selection(uuid, sessionId)));
      hide Inv;
      if uuid !in devices {
        return NotFound;
      }
      devices := devices[uuid := devices[uuid].(currentSession := Some(sessionId))];
      posting := posting + [Selection(uuid, sessionId)];
      reply := Done;
    }

    method SendSelection(request: nat)
      requires Valid() && request < |posting|
      modifies this`posting, this`pending
      ensures Valid() && St() == AfterEnqueue(old(St()), request)
    {
      RoutingTheorems.NextKeeps(St(), Enqueue(request));
      hide Inv;
      pending := pending + [posting[request]];
      posting := posting[..request] + posting[request + 1..];
    }

    // One turn of the manager's loop, up to opening the session.
    method HandleDeviceSelected() returns (reply: Reply)
      requires Valid() && pending != [] && spawning.None?
      modifies this
      ensures Valid() && St() == AfterHandle(old(St()))
      ensures reply == Done <==> RoutingTheorems.Opens(old(St()), HandleSelected).Some?
      ensures reply in {Done, NotFound}
    {
      RoutingTheorems.NextKeeps(St(), HandleSelected);
      var selected := pending[0];
      pending := pending[1..];
      if selected.uuid !in devices {
        return NotFound;
      }
      var handle := devices[selected.uuid].handle;
      var c := |channels|;
      channels := channels + [Channel(handle, true, [], 0)];
      handles := handles[handle := handles[handle].(cell := Some(c), channels := handles[handle].channels + [c])];
      spawning := Some(Link(selected.uuid, selected.sessionId, handle, c));
      reply := Done;
      hide Inv;
    }

    method SessionSpawned(ok: bool)
      requires Valid() && spawning.Some?
      modifies this
      ensures Valid() && St() == AfterSpawned(old(St()), ok)
    {
      RoutingTheorems.NextKeeps(St(), Spawned(ok));
      hide HandlesOk, Conserved, RunnersOk, DevicesOk, OpenOk, InboxesOk;
      var link := spawning.value;
      if ok {
        runners := runners + [Runner(link, true, [])];
      } else {
        channels := channels[link.channel := channels[link.channel].(open := false)];
      }
      spawning := None;
    }

    // What every `report_*` and `queue_*` method of a handle does.
    method SendCommand(handle: nat, command: Events.SessionCommand) returns (reply: Reply)
      requires Valid() && handle < |handles|
      modifies this`handles, this`channels
      ensures Valid() && St() == AfterSend(old(St()), handle, command)
      ensures reply == SendReply(old(St()), handle)
    {
      RoutingTheorems.NextKeeps(St(), Send(handle, command));
      assert HandleOk(St(), handle);
      hide HandlesOk, Conserved, RunnersOk, DevicesOk, OpenOk, InboxesOk, SpawningOk;
      var cell := handles[handle].cell;
      if cell.None? {
        return NotConnected;
      }
      var c := cell.value;
      if !channels[c].open {
        return SessionGone;
      }
      channels := channels[c := channels[c].(sent := channels[c].sent + [command])];
      handles := handles[handle := handles[handle].(accepted := handles[handle].accepted + [command])];
      reply := Accepted;
    }

    // A runner's `recv` on its command channel, when there is something in it.
    method TakeCommand(r: nat) returns (command: Option<Events.SessionCommand>)
      requires Valid() && r < |runners| && runners[r].alive
      modifies this`channels, this`runners
      ensures Valid() && St() == AfterTake(old(St()), r)
      ensures runners[r].got == old(runners[r].got) + match command { case Some(c) => [c] case None => [] }
    {
      RoutingTheorems.NextKeeps(St(), Take(r));
      assert RunnerOk(St(), runners[r]);
      hide HandlesOk, Conserved, RunnersOk, DevicesOk, OpenOk, InboxesOk, SpawningOk;
      var c := runners[r].link.channel;
      var ch := channels[c];
      if ch.taken == |ch.sent| {
        return None;
      }
      command := Some(ch.sent[ch.taken]);
      channels := channels[c := ch.(taken := ch.taken + 1)];
      runners := runners[r := runners[r].(got := runners[r].got + [ch.sent[ch.taken]])];
    }

    method EmitEvent(r: nat, event: Events.Event)
      requires Valid() && r < |runners| && runners[r].alive
      modifies this`handles
      ensures Valid() && St() == AfterEmit(old(St()), r, event)
    {
      RoutingTheorems.NextKeeps(St(), Emit(r, event));
      assert RunnerOk(St(), runners[r]);
      hide HandlesOk, Conserved, RunnersOk, DevicesOk, OpenOk, InboxesOk, SpawningOk;
      var h := runners[r].link.handle;
      handles := handles[h := handles[h].(inbox := handles[h].inbox + [Delivery(r, event)])];
    }

    // The runner's loop ends and its receiver goes.
    method RunnerExits(r: nat)
      requires Valid() && r < |runners| && runners[r].alive
      modifies this`runners, this`channels
      ensures Valid() && St() == AfterExit(old(St()), r)
    {
      RoutingTheorems.NextKeeps(St(), Exit(r));
      assert RunnerOk(St(), runners[r]);
      hide HandlesOk, Conserved, RunnersOk, DevicesOk, OpenOk, InboxesOk, SpawningOk;
      var c := runners[r].link.channel;
      runners := runners[r := runners[r].(alive := false)];
      channels := channels[c := channels[c].(open := false)];
    }
  }
}
