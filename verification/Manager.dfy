/** The manager thread of src/manager.rs: its tables and its message handlers, each shown to take the
    transition that Registry gives it. */
module Manager {
  import opened Prelude
  import opened Registry
  import opened RegistryProofs

  function ServeFirst(c: Channels, i: nat, n: Notice): Channels
    requires i <= |c.listeners|
  {
    Broadcast(c.(listeners := c.listeners[..i]), n)
  }

  lemma ServeNext(c: Channels, i: nat, n: Notice)
    requires i < |c.listeners|
    ensures var r, l := ServeFirst(c, i, n), c.listeners[i];
            ServeFirst(c, i + 1, n)
            == if l in c.dead then r
               else Channels(r.listeners + [l], r.logs[l := (if l in r.logs then r.logs[l] else []) + [n]], r.dead)
  {
    assert c.listeners[..i + 1][..i] == c.listeners[..i];
  }

  datatype DeviceConnection = DeviceConnection(
    connectionType: string,
    serialNumber: string,
    networkAddress: Option<nat>,
    usb: Option<nat>)

  /** `logs` and `dead` are the listeners' channels, `deferred` the heartbeat tasks under way: things
      outside the thread that its handlers act on. `given` and `past` are history. */
  class Manager {
    const base: U64
    const useHeartbeat: bool
    var lastIndex: U64
    var lastInterface: U64
    var devices: map<U64, Device>
    var handles: map<U64, nat>
    var sockets: map<U64, seq<nat>>
    var listeners: seq<nat>
    var logs: map<nat, seq<Notice>>
    var dead: set<nat>
    var deferred: seq<Heartbeat>
    ghost var beating: map<U64, Device>
    var desk: Desk
    ghost var given: nat
    ghost var past: History

    constructor (shim: bool, useHeartbeat: bool)
      ensures Valid() && View() == Init(shim, useHeartbeat)
    {
      base := if shim then SHIM_NETWORK_ID_BASE else 1;
      this.useHeartbeat := useHeartbeat;
      lastIndex := if shim then SHIM_NETWORK_ID_BASE else 1;
      lastInterface := 1;
      devices, handles, sockets := map[], map[], map[];
      listeners, logs, dead, deferred := [], map[], {}, [];
      beating, desk := map[], Desk({}, map[], {});
      given, past := 0, History({}, {}, [], {}, {}, {}, {});
    }

    ghost predicate Valid()
      reads this
    {
      Distinct(listeners) && forall l :: l in listeners ==> l in logs
    }

    ghost function View(): Reg
      reads this
    {
      Reg(base, useHeartbeat, lastIndex, lastInterface, given, devices, handles, sockets,
          Channels(listeners, logs, dead), deferred, beating, desk, past)
    }

    // ---- channels ------------------------------------------------------------------------

    /** A send fails only if the receiver is gone. */
    method Send(l: nat, n: Notice) returns (ok: bool)
      requires l in logs
      modifies this`logs
      ensures ok == (l !in dead)
      ensures logs == if ok then old(logs)[l := old(logs)[l] + [n]] else old(logs)
    {
      ok := l !in dead;
      if ok {
        logs := logs[l := logs[l] + [n]];
      }
    }

    /** Send to every listener and keep those that still receive. */
    method Announce(n: Notice)
      requires Valid()
      modifies this`listeners, this`logs
      ensures Valid() && Channels(listeners, logs, dead) == Broadcast(old(Channels(listeners, logs, dead)), n)
    {
      ghost var c := Channels(listeners, logs, dead);
      var kept: seq<nat> := [];
      for i := 0 to |listeners|
        invariant listeners == c.listeners && logs.Keys == c.logs.Keys
        invariant Channels(kept, logs, dead) == ServeFirst(c, i, n)
      {
        ServeNext(c, i, n);
        var ok := Send(listeners[i], n);
        if ok {
          kept := kept + [listeners[i]];
        }
      }
      BroadcastReaches(c, n);
      assert c.listeners[..|listeners|] == c.listeners;
      listeners := kept;
    }

    // ---- the tables ----------------------------------------------------------------------

    /** The order in which the device map happens to yield its keys. */
    method Keys() returns (order: seq<U64>)
      ensures Distinct(order) && forall id :: id in order <==> id in devices
    {
      order := [];
      var rest := devices.Keys;
      while rest != {}
        invariant Distinct(order)
        invariant forall id :: id in devices <==> id in order || id in rest
        invariant forall id :: id in order ==> id !in rest
      {
        var id :| id in rest;
        order, rest := order + [id], rest - {id};
      }
    }

    method FindDeviceId(udid: string, connectionType: string) returns (found: Option<U64>)
      ensures Finds(devices, udid, connectionType, found)
    {
      var order := Keys();
      for i := 0 to |order|
        invariant forall k :: 0 <= k < i ==> !Matches(devices[order[k]], udid, connectionType)
      {
        if Matches(devices[order[i]], udid, connectionType) {
          return Some(order[i]);
        }
      }
      return None;
    }

    method NextIds() returns (id: U64, interfaceIndex: U64)
      modifies this`lastIndex, this`lastInterface, this`given
      ensures id == old(lastIndex) && interfaceIndex == old(lastInterface)
      ensures View() == Allocate(old(View()))
    {
      id, interfaceIndex := lastIndex, lastInterface;
      lastIndex := (lastIndex + 1) % 0x1_0000_0000_0000_0000;
      lastInterface := (lastInterface + 1) % 0x1_0000_0000_0000_0000;
      given := given + 1;
    }

    method KillSockets(id: U64)
      modifies this`sockets, this`past
      ensures sockets == old(sockets) - {id}
      ensures past == old(past).(killed := old(past).killed
                                           + if id in old(sockets) then set k | k in old(sockets)[id] else {})
    {
      if id in sockets {
        ghost var kills := set k | k in sockets[id];
        past := past.(killed := past.killed + kills);
        sockets := sockets - {id};
      } else {
        assert sockets - {id} == sockets && past.killed + {} == past.killed;
      }
    }

    /** Drop the entry, kill its sockets, hand over its USB handle. `shut` is what the caller is
        about to do with it. */
    method DropEntry(id: U64, ghost shut: bool) returns (handle: Option<nat>)
      requires Valid()
      modifies this`devices, this`sockets, this`handles, this`past
      ensures Valid() && View() == Registry.DropEntry(old(View()), id, shut)
      ensures handle == if id in old(handles) then Some(old(handles)[id]) else None
    {
      devices := devices - {id};
      KillSockets(id);
      handle := if id in handles then Some(handles[id]) else None;
      ghost var freed := if handle.Some? then {handle.value} else {};
      past := past.(removed := past.removed + {id},
                    shut := past.shut + (if shut then freed else {}),
                    lost := past.lost + (if shut then {} else freed));
      handles := handles - {id};
    }

    method AddDevice(d: Device)
      requires Valid()
      modifies this`devices, this`listeners, this`logs
      ensures Valid() && View() == Insert(old(View()), d)
    {
      devices := devices[d.deviceId := d];
      Announce(Attached(d));
    }

    method PutHandle(id: U64, handle: nat)
      requires Valid()
      modifies this`handles, this`past
      ensures Valid() && View() == SetHandle(old(View()), id, handle)
    {
      past := past.(accepted := past.accepted + {handle},
                    replaced := past.replaced + if id in handles then {handles[id]} else {});
      handles := handles[id := handle];
    }

    // ---- messages ------------------------------------------------------------------------

    /** Send the Result on a requester's oneshot, if there is one. */
    method Respond(request: Option<nat>, ok: bool)
      modifies this`desk
      ensures desk == Answer(old(desk), request, ok)
    {
      if request.Some? {
        desk := desk.(answers := desk.answers[request.value := ok]);
      }
    }

    method DiscoveredNetwork(udid: string, address: nat, service: string, connectionType: string, paired: bool,
                             request: Option<nat>)
      requires Valid()
      modifies this
      ensures Valid()
      ensures View() == OnNetwork(old(View()), udid, address, service, connectionType, paired, request)
    {
      desk := Ask(desk, request);
      var found := FindDeviceId(udid, connectionType);
      if found.Some? || !paired {
        assert found.Some? ==> Matches(devices[found.value], udid, connectionType);
        desk := Drop(desk, request);
        return;
      }
      var id, interfaceIndex := NextIds();
      var d := Device(connectionType, id, interfaceIndex, udid, Some(address), Some(service), None, None, None);
      if useHeartbeat {
        deferred := deferred + [Heartbeat(d, request)];
        return;
      }
      AddDevice(d);
      Respond(request, true);
    }

    method DiscoveredUsb(udid: string, location: U64, product: U64, speed: U64, handle: nat)
      returns (ghost found: Option<U64>)
      requires Valid()
      modifies this
      ensures Finds(old(devices), udid, "USB", found)
      ensures Valid() && View() == OnUsb(old(View()), udid, location, product, speed, handle, found)
    {
      var existing := FindDeviceId(udid, "USB");
      found := existing;
      if existing.Some? {
        PutHandle(existing.value, handle);
        return;
      }
      var id, interfaceIndex := NextIds();
      AddDevice(Device("USB", id, interfaceIndex, udid, None, None, Some(speed), Some(location), Some(product)));
      PutHandle(id, handle);
    }

    /** The device of heartbeat task `i`, which has come up. */
    method DeferredAdd(i: nat)
      requires Valid() && i < |deferred|
      modifies this
      ensures Valid() && View() == OnDeferred(old(View()), i)
    {
      var h := deferred[i];
      deferred := Without(deferred, i);
      AddDevice(h.device);
      beating := beating[h.device.deviceId := h.device];
      Respond(h.request, true);
    }

    method RemoveDevice(udid: string, ofType: Option<string>) returns (ids: seq<U64>)
      requires Valid()
      modifies this
      ensures Distinct(ids)
      ensures forall id :: id in ids <==> id in old(devices) && Selected(old(devices)[id], udid, ofType)
      ensures Valid() && View() == RemoveAll(old(View()), ids)
    {
      ids := Select(udid, ofType);
      for i := 0 to |ids|
        invariant Valid() && RemoveAll(View(), ids[i..]) == RemoveAll(old(View()), ids)
      {
        RemoveOne(ids[i], true);
        assert ids[i..][1..] == ids[i + 1..];
      }
    }

    method Select(udid: string, ofType: Option<string>) returns (ids: seq<U64>)
      ensures Distinct(ids)
      ensures forall id :: id in ids <==> id in devices && Selected(devices[id], udid, ofType)
    {
      ids := [];
      var order := Keys();
      for i := 0 to |order|
        invariant Distinct(ids)
        invariant forall id :: id in ids <==> id in order[..i] && Selected(devices[id], udid, ofType)
      {
        assert order[..i + 1] == order[..i] + [order[i]];
        assert order[i] !in order[..i];
        if Selected(devices[order[i]], udid, ofType) {
          ids := ids + [order[i]];
        }
      }
      assert order[..|order|] == order;
    }

    method RemoveOne(id: U64, ghost shut: bool)
      requires Valid()
      modifies this
      ensures Valid() && View() == Remove(old(View()), id, shut)
    {
      var _ := DropEntry(id, shut);
      Announce(Detached(id));
    }

    method HeartbeatFailed(udid: string) returns (ghost found: Option<U64>)
      requires Valid()
      modifies this
      ensures Finds(old(devices), udid, "Network", found)
      ensures Valid() && View() == if found.Some? then Remove(old(View()), found.value, false) else old(View())
    {
      var id := FindDeviceId(udid, "Network");
      found := id;
      if id.Some? {
        RemoveOne(id.value, false);
      }
    }

    method OpenSocket(id: U64, kill: nat)
      requires Valid()
      modifies this`sockets, this`past
      ensures Valid() && View() == OnOpen(old(View()), id, kill)
    {
      past := past.(openings := past.openings + [Opening(id, kill, id in past.removed)]);
      sockets := sockets[id := (if id in sockets then sockets[id] else []) + [kill]];
    }

    /** A new channel `l`: the table first, then, if it still receives, a place among the listeners. */
    method Subscribe(l: nat) returns (order: seq<U64>)
      requires Valid() && l !in logs
      modifies this`listeners, this`logs
      ensures Distinct(order) && forall id :: id in order <==> id in devices
      ensures Valid() && View() == old(View()).(channels := Join(old(View()).channels, l, Dump(devices, order)))
    {
      order := Keys();
      logs := logs[l := []];
      var ok := true;
      for i := 0 to |order|
        invariant ok && (l in dead ==> i == 0)
        invariant listeners == old(listeners) && logs == old(logs)[l := Dump(devices, order[..i])]
      {
        assert order[..i + 1] == order[..i] + [order[i]];
        DumpSnoc(devices, order[..i], order[i]);
        ok := Send(l, Attached(devices[order[i]]));
        if !ok {
          break;
        }
      }
      if ok {
        assert order[..|order|] == order;
        listeners := listeners + [l];
      }
    }

    /** Every entry of the table, once. */
    method ListDevices() returns (list: seq<Device>)
      ensures |list| == |devices|
      ensures forall d :: d in list <==> exists id :: id in devices && devices[id] == d
    {
      var order := Keys();
      list := [];
      for i := 0 to |order|
        invariant |list| == i && forall k :: 0 <= k < i ==> list[k] == devices[order[k]]
      {
        list := list + [devices[order[i]]];
      }
      forall d ensures d in list <==> exists id :: id in devices && devices[id] == d {
        if id :| id in devices && devices[id] == d {
          assert id in order;
          var k :| 0 <= k < |order| && order[k] == id;
          assert list[k] == d;
        }
        if d in list {
          var k :| 0 <= k < |list| && list[k] == d;
          assert order[k] in devices;
        }
      }
      DistinctCount(order, devices.Keys);
    }

    method GetDeviceConnection(id: U64) returns (connection: Option<DeviceConnection>)
      ensures connection.None? <==> id !in devices
      ensures connection.Some? ==>
                && connection.value.connectionType == devices[id].connectionType
                && connection.value.serialNumber == devices[id].serialNumber
                && connection.value.networkAddress == devices[id].networkAddress
                && connection.value.usb == if id in handles then Some(handles[id]) else None
    {
      if id !in devices {
        return None;
      }
      var d := devices[id];
      var usb := if id in handles then Some(handles[id]) else None;
      return Some(DeviceConnection(d.connectionType, d.serialNumber, d.networkAddress, usb));
    }
  }

  /** The Connect arm of a client session: with an upstream, ids below the base are its own; for the
      others the manager is asked, and the connection type says how to get there. */
  method Connect(manager: Manager, shim: bool, id: U64) returns (t: Target)
    ensures t == ConnectTarget(manager.View(), shim, id)
  {
    if shim && id < SHIM_NETWORK_ID_BASE {
      return ToUpstream;
    }
    var lookup := manager.GetDeviceConnection(id);
    if lookup.None? {
      return NoDevice;
    }
    var c := lookup.value;
    if c.connectionType == "Network" {
      return if c.networkAddress.Some? then ToAddress(c.networkAddress.value) else Unreachable;
    } else if c.connectionType == "USB" {
      return if c.usb.Some? then ToMux(c.usb.value) else Unreachable;
    }
    return Unreachable;
  }

  lemma {:induction false} DistinctCount(order: seq<U64>, keys: set<U64>)
    requires Distinct(order) && forall id :: id in order <==> id in keys
    ensures |order| == |keys|
    decreases |order|
  {
    if order != [] {
      var last := order[|order| - 1];
      var front := order[..|order| - 1];
      assert order == front + [last];
      assert last in keys;
      DistinctCount(front, keys - {last});
    }
  }
}
