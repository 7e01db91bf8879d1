/** The device manager of src/manager.rs as a state and one transition per message, with the history
    its listeners, sockets and USB handles leave behind. */
module Registry {
  import opened Prelude

  type U64 = n: int | 0 <= n < 0x1_0000_0000_0000_0000

  const SHIM_NETWORK_ID_BASE: U64 := 0x1000_0000

  datatype Device = Device(
    connectionType: string,
    deviceId: U64,
    interfaceIndex: U64,
    serialNumber: string,
    networkAddress: Option<nat>,
    serviceName: Option<string>,
    connectionSpeed: Option<U64>,
    locationId: Option<U64>,
    productId: Option<U64>)

  /** `Attached` stands for the plist attached_plist makes of the device. */
  datatype Notice = Attached(device: Device) | Detached(id: U64)

  function IdOf(n: Notice): U64 {
    match n
    case Attached(d) => d.deviceId
    case Detached(id) => id
  }

  /** The listeners' channels: who is registered, what each channel has been sent, and whose
      receiver is gone. */
  datatype Channels = Channels(listeners: seq<nat>, logs: map<nat, seq<Notice>>, dead: set<nat>)

  /** OpenSocket as it was received; `gone` if the device had been removed before. */
  datatype Opening = Opening(id: U64, kill: nat, gone: bool)

  /** What has left the tables: ids of removed devices, kill signals given, and USB handles taken
      in, shut down, replaced by a newer one, or dropped without a word. */
  datatype History = History(
    removed: set<U64>,
    killed: set<nat>,
    openings: seq<Opening>,
    accepted: set<nat>,
    shut: set<nat>,
    replaced: set<nat>,
    lost: set<nat>)

  /** A heartbeat task that has not come up yet: its device, and the requester waiting for a Result. */
  datatype Heartbeat = Heartbeat(device: Device, request: Option<nat>)

  /** The requests that came with a oneshot: those received, the Results sent (1 or, by a heartbeat
      that gives up, 0), and those let drop without one. */
  datatype Desk = Desk(asked: set<nat>, answers: map<nat, bool>, dropped: set<nat>)

  function Ask(k: Desk, request: Option<nat>): Desk {
    if request.Some? then k.(asked := k.asked + {request.value}) else k
  }

  function Answer(k: Desk, request: Option<nat>, ok: bool): Desk {
    if request.Some? then k.(answers := k.answers[request.value := ok]) else k
  }

  function Drop(k: Desk, request: Option<nat>): Desk {
    if request.Some? then k.(dropped := k.dropped + {request.value}) else k
  }

  /** `given` counts the ids given out since the start; `deferred` are the devices held by
      heartbeat tasks that have not come up yet, `beating` those of tasks that have, by id. */
  datatype Reg = Reg(
    base: U64,
    useHeartbeat: bool,
    lastIndex: U64,
    lastInterface: U64,
    given: nat,
    devices: map<U64, Device>,
    handles: map<U64, nat>,
    sockets: map<U64, seq<nat>>,
    channels: Channels,
    deferred: seq<Heartbeat>,
    beating: map<U64, Device>,
    desk: Desk,
    past: History)

  /** In shim mode ids start at SHIM_NETWORK_ID_BASE, otherwise at 1. */
  function Init(shim: bool, useHeartbeat: bool): Reg {
    var base := if shim then SHIM_NETWORK_ID_BASE else 1;
    Reg(base, useHeartbeat, base, 1, 0, map[], map[], map[], Channels([], map[], {}), [], map[],
        Desk({}, map[], {}), History({}, {}, [], {}, {}, {}, {}))
  }

  // ---- listeners -------------------------------------------------------------------------

  /** broadcast: send to one listener after the other, and keep those that still receive. */
  function Broadcast(c: Channels, n: Notice): Channels
    decreases |c.listeners|
  {
    if c.listeners == [] then c
    else
      var k := |c.listeners| - 1;
      var r := Broadcast(c.(listeners := c.listeners[..k]), n);
      var l := c.listeners[k];
      if l in c.dead then r
      else r.(listeners := r.listeners + [l], logs := r.logs[l := (if l in r.logs then r.logs[l] else []) + [n]])
  }

  function Dump(devices: map<U64, Device>, order: seq<U64>): seq<Notice>
    requires forall id :: id in order ==> id in devices
  {
    if order == [] then [] else [Attached(devices[order[0]])] + Dump(devices, order[1..])
  }

  /** A new listener is sent the whole table first. If its receiver is gone it is not registered,
      unless there was nothing to send. */
  function Join(c: Channels, l: nat, dump: seq<Notice>): Channels {
    if l in c.dead && dump != [] then c.(logs := c.logs[l := []])
    else c.(listeners := c.listeners + [l], logs := c.logs[l := dump])
  }

  // ---- the tables ------------------------------------------------------------------------

  predicate Matches(d: Device, udid: string, connectionType: string) {
    d.serialNumber == udid && d.connectionType == connectionType
  }

  predicate HasPair(devices: map<U64, Device>, udid: string, connectionType: string) {
    exists id :: id in devices && Matches(devices[id], udid, connectionType)
  }

  /** What find_device_id may answer; with several matches the map's iteration order decides. */
  predicate Finds(devices: map<U64, Device>, udid: string, connectionType: string, found: Option<U64>) {
    match found
    case Some(id) => id in devices && Matches(devices[id], udid, connectionType)
    case None => !HasPair(devices, udid, connectionType)
  }

  function Allocate(s: Reg): Reg {
    s.(lastIndex := (s.lastIndex + 1) % 0x1_0000_0000_0000_0000,
       lastInterface := (s.lastInterface + 1) % 0x1_0000_0000_0000_0000,
       given := s.given + 1)
  }

  function Insert(s: Reg, d: Device): Reg {
    s.(devices := s.devices[d.deviceId := d], channels := Broadcast(s.channels, Attached(d)))
  }

  function SetHandle(s: Reg, id: U64, handle: nat): Reg {
    s.(handles := s.handles[id := handle],
       past := s.past.(accepted := s.past.accepted + {handle},
                       replaced := s.past.replaced + if id in s.handles then {s.handles[id]} else {}))
  }

  /** drop_entry: the entry goes, its sockets are killed, its handle is given to the caller, who
      shuts it down (`shut`) or lets it drop. */
  function DropEntry(s: Reg, id: U64, shut: bool): Reg {
    var handle := if id in s.handles then {s.handles[id]} else {};
    s.(devices := s.devices - {id},
       handles := s.handles - {id},
       sockets := s.sockets - {id},
       past := s.past.(removed := s.past.removed + {id},
                       killed := s.past.killed + (if id in s.sockets then set k | k in s.sockets[id] else {}),
                       shut := s.past.shut + (if shut then handle else {}),
                       lost := s.past.lost + (if shut then {} else handle)))
  }

  function Remove(s: Reg, id: U64, shut: bool): Reg {
    DropEntry(s, id, shut).(channels := Broadcast(s.channels, Detached(id)))
  }

  function RemoveAll(s: Reg, ids: seq<U64>): Reg
    decreases |ids|
  {
    if ids == [] then s else RemoveAll(Remove(s, ids[0], true), ids[1..])
  }

  // ---- messages --------------------------------------------------------------------------

  /** The messages, with what the manager cannot foresee as parameters: whether a pairing record was
      found, in which order a map yields its keys, which match it yields first. Heartbeat tasks add
      their device later (`DeferredAdd`) or give up. Every channel, socket and handle is new. */
  datatype Event =
    | DiscoveredNetwork(udid: string, address: nat, service: string, connectionType: string, paired: bool,
                        request: Option<nat>)
    | DiscoveredUsb(udid: string, location: U64, product: U64, speed: U64, handle: nat, found: Option<U64>)
    | DeferredAdd(i: nat)
    | HeartbeatGivesUp(i: nat)
    | RemoveDevice(udid: string, ofType: Option<string>, ids: seq<U64>)
    | HeartbeatFailed(udid: string, found: Option<U64>)
    | OpenSocket(id: U64, kill: nat)
    | Subscribe(listener: nat, order: seq<U64>)
    | ReceiverDrops(listener: nat)

  predicate Distinct<T(==)>(xs: seq<T>) {
    forall i, j :: 0 <= i < j < |xs| ==> xs[i] != xs[j]
  }

  predicate Selected(d: Device, udid: string, ofType: Option<string>) {
    d.serialNumber == udid && (ofType.Some? ==> d.connectionType == ofType.value)
  }

  ghost predicate Can(s: Reg, e: Event) {
    match e
    case DiscoveredNetwork(_, _, _, _, _, request) => request.Some? ==> request.value !in s.desk.asked
    case DiscoveredUsb(udid, _, _, _, handle, found) =>
      Finds(s.devices, udid, "USB", found) && handle !in s.past.accepted
    case DeferredAdd(i) => i < |s.deferred|
    case HeartbeatGivesUp(i) => i < |s.deferred|
    case RemoveDevice(udid, ofType, ids) =>
      Distinct(ids) && forall id :: id in ids <==> id in s.devices && Selected(s.devices[id], udid, ofType)
    case HeartbeatFailed(udid, found) => Finds(s.devices, udid, "Network", found)
    case OpenSocket(_, kill) => forall i :: 0 <= i < |s.past.openings| ==> s.past.openings[i].kill != kill
    case Subscribe(l, order) =>
      l !in s.channels.logs && Distinct(order) && forall id :: id in order <==> id in s.devices
    case ReceiverDrops(_) => true
  }

  function NetworkDevice(s: Reg, udid: string, address: nat, service: string, connectionType: string): Device {
    Device(connectionType, s.lastIndex, s.lastInterface, udid, Some(address), Some(service), None, None, None)
  }

  function UsbDevice(s: Reg, udid: string, location: U64, product: U64, speed: U64): Device {
    Device("USB", s.lastIndex, s.lastInterface, udid, None, None, Some(speed), Some(location), Some(product))
  }

  /** A discovery that is ignored lets its requester drop. */
  function OnNetwork(s: Reg, udid: string, address: nat, service: string, connectionType: string, paired: bool,
                     request: Option<nat>): Reg
  {
    var desk := Ask(s.desk, request);
    if HasPair(s.devices, udid, connectionType) || !paired then s.(desk := Drop(desk, request))
    else
      var d := NetworkDevice(s, udid, address, service, connectionType);
      if s.useHeartbeat then Allocate(s).(deferred := s.deferred + [Heartbeat(d, request)], desk := desk)
      else Insert(Allocate(s), d).(desk := Answer(desk, request, true))
  }

  /** A device that is already listed keeps its entry and only gets the new handle. */
  function OnUsb(s: Reg, udid: string, location: U64, product: U64, speed: U64, handle: nat, found: Option<U64>): Reg {
    if found.Some? then SetHandle(s, found.value, handle)
    else
      var d := UsbDevice(s, udid, location, product, speed);
      SetHandle(Insert(Allocate(s), d), d.deviceId, handle)
  }

  function Without<T>(xs: seq<T>, i: nat): seq<T>
    requires i < |xs|
  {
    xs[..i] + xs[i + 1..]
  }

  function OnDeferred(s: Reg, i: nat): Reg
    requires i < |s.deferred|
  {
    var h := s.deferred[i];
    Insert(s.(deferred := Without(s.deferred, i)), h.device).(
      beating := s.beating[h.device.deviceId := h.device], desk := Answer(s.desk, h.request, true))
  }

  /** The heartbeat answers for itself before the manager ever hears of it again. */
  function OnGivesUp(s: Reg, i: nat): Reg
    requires i < |s.deferred|
  {
    s.(deferred := Without(s.deferred, i), desk := Answer(s.desk, s.deferred[i].request, false))
  }

  function OnOpen(s: Reg, id: U64, kill: nat): Reg {
    s.(sockets := s.sockets[id := (if id in s.sockets then s.sockets[id] else []) + [kill]],
       past := s.past.(openings := s.past.openings + [Opening(id, kill, id in s.past.removed)]))
  }

  function Next(s: Reg, e: Event): Reg
    requires Can(s, e)
  {
    match e
    case DiscoveredNetwork(udid, address, service, connectionType, paired, request) =>
      OnNetwork(s, udid, address, service, connectionType, paired, request)
    case DiscoveredUsb(udid, location, product, speed, handle, found) =>
      OnUsb(s, udid, location, product, speed, handle, found)
    case DeferredAdd(i) => OnDeferred(s, i)
    case HeartbeatGivesUp(i) => OnGivesUp(s, i)
    case RemoveDevice(_, _, ids) => RemoveAll(s, ids)
    case HeartbeatFailed(_, found) => if found.Some? then Remove(s, found.value, false) else s
    case OpenSocket(id, kill) => OnOpen(s, id, kill)
    case Subscribe(l, order) => s.(channels := Join(s.channels, l, Dump(s.devices, order)))
    case ReceiverDrops(l) => s.(channels := s.channels.(dead := s.channels.dead + {l}))
  }

  ghost predicate IsRun(s: Reg, events: seq<Event>)
    decreases |events|
  {
    events == [] || (Can(s, events[0]) && IsRun(Next(s, events[0]), events[1..]))
  }

  function Run(s: Reg, events: seq<Event>): Reg
    requires IsRun(s, events)
    decreases |events|
  {
    if events == [] then s else Run(Next(s, events[0]), events[1..])
  }

  // ---- what a client makes of a channel --------------------------------------------------

  function Apply(table: map<U64, Device>, n: Notice): map<U64, Device> {
    match n
    case Attached(d) => table[d.deviceId := d]
    case Detached(id) => table - {id}
  }

  function Replay(log: seq<Notice>): map<U64, Device> {
    if log == [] then map[] else Apply(Replay(log[..|log| - 1]), log[|log| - 1])
  }

  /** Every id is attached at most once, and detached at most once and only after that. */
  predicate Orderly(log: seq<Notice>) {
    && (forall i, j :: 0 <= i < j < |log| && IdOf(log[i]) == IdOf(log[j]) ==> log[i].Attached? && log[j].Detached?)
    && (forall j :: 0 <= j < |log| && log[j].Detached? ==> AttachedBefore(log, j, log[j].id))
  }

  predicate AttachedBefore(log: seq<Notice>, j: nat, id: U64)
    requires j <= |log|
  {
    exists i :: 0 <= i < j && log[i].Attached? && log[i].device.deviceId == id
  }

  // ---- the Connect arm of src/main.rs ----------------------------------------------------

  /** Where a Connect for an id is taken: to the upstream muxer, to a device on the network or behind
      a mux task, or nowhere. */
  datatype Target = ToUpstream | ToAddress(address: nat) | ToMux(handle: nat) | NoDevice | Unreachable

  function ConnectTarget(s: Reg, shim: bool, id: U64): Target {
    if shim && id < SHIM_NETWORK_ID_BASE then ToUpstream
    else if id !in s.devices then NoDevice
    else
      var d := s.devices[id];
      if d.connectionType == "Network" then
        if d.networkAddress.Some? then ToAddress(d.networkAddress.value) else Unreachable
      else if d.connectionType == "USB" then
        if id in s.handles then ToMux(s.handles[id]) else Unreachable
      else Unreachable
  }
}
