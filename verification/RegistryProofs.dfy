/** What every message keeps, and what follows for every run of the device manager. */
module RegistryProofs {
  import opened Prelude
  import opened Registry

  // ---- listeners mirror the table --------------------------------------------------------

  predicate Mirrors(c: Channels, devices: map<U64, Device>) {
    && Distinct(c.listeners)
    && forall l :: l in c.listeners ==> l in c.logs && Replay(c.logs[l]) == devices
  }

  /** `r` is what a broadcast to the first listeners `done` leaves. */
  ghost predicate Reached(c: Channels, done: seq<nat>, r: Channels, n: Notice) {
    && r.dead == c.dead && r.logs.Keys == c.logs.Keys
    && Distinct(r.listeners)
    && (forall l :: l in r.listeners <==> l in done && l !in c.dead)
    && (forall l :: l in c.logs ==> r.logs[l] == if l in done && l !in c.dead then c.logs[l] + [n] else c.logs[l])
  }

  lemma ReachNext(c: Channels, done: seq<nat>, r: Channels, n: Notice, l: nat)
    requires Reached(c, done, r, n) && l !in done && l in c.logs
    ensures Reached(c, done + [l],
                    if l in c.dead then r else r.(listeners := r.listeners + [l], logs := r.logs[l := r.logs[l] + [n]]), n)
  {
  }

  /** A broadcast reaches exactly the listeners that still receive, each once, and keeps them. */
  lemma {:induction false} BroadcastReaches(c: Channels, n: Notice)
    requires Distinct(c.listeners) && forall l :: l in c.listeners ==> l in c.logs
    ensures Reached(c, c.listeners, Broadcast(c, n), n)
    decreases |c.listeners|
  {
    if c.listeners != [] {
      var k := |c.listeners| - 1;
      var front, l := c.listeners[..k], c.listeners[k];
      assert c.listeners == front + [l];
      var c' := c.(listeners := front);
      BroadcastReaches(c', n);
      ReachNext(c, front, Broadcast(c', n), n, l);
    }
  }

  lemma ReplaySnoc(log: seq<Notice>, n: Notice)
    ensures Replay(log + [n]) == Apply(Replay(log), n)
  {
    assert (log + [n])[..|log|] == log;
  }

  /** A broadcast moves every mirror along with the table. */
  lemma BroadcastMirrors(c: Channels, devices: map<U64, Device>, n: Notice)
    requires Mirrors(c, devices)
    ensures Mirrors(Broadcast(c, n), Apply(devices, n))
  {
    BroadcastReaches(c, n);
    forall l | l in Broadcast(c, n).listeners ensures Replay(Broadcast(c, n).logs[l]) == Apply(devices, n) {
      ReplaySnoc(c.logs[l], n);
    }
  }

  predicate Keyed(devices: map<U64, Device>) {
    forall id :: id in devices ==> devices[id].deviceId == id
  }

  lemma {:induction false} DumpSnoc(devices: map<U64, Device>, order: seq<U64>, id: U64)
    requires forall i :: i in order ==> i in devices
    requires id in devices
    ensures Dump(devices, order + [id]) == Dump(devices, order) + [Attached(devices[id])]
  {
    if order == [] {
      assert order + [id] == [id];
    } else {
      assert (order + [id])[1..] == order[1..] + [id];
      DumpSnoc(devices, order[1..], id);
    }
  }

  lemma {:induction false} DumpReplays(devices: map<U64, Device>, order: seq<U64>)
    requires Keyed(devices) && forall id :: id in order ==> id in devices
    ensures Replay(Dump(devices, order)) == map id | id in devices && id in order :: devices[id]
    decreases |order|
  {
    if order != [] {
      var front, id := order[..|order| - 1], order[|order| - 1];
      assert order == front + [id];
      DumpSnoc(devices, front, id);
      DumpReplays(devices, front);
      ReplaySnoc(Dump(devices, front), Attached(devices[id]));
    }
  }

  lemma JoinMirrors(c: Channels, devices: map<U64, Device>, l: nat, order: seq<U64>)
    requires Mirrors(c, devices) && Keyed(devices) && l !in c.logs
    requires forall id :: id in order <==> id in devices
    ensures Mirrors(Join(c, l, Dump(devices, order)), devices)
  {
    DumpReplays(devices, order);
    assert Replay(Dump(devices, order)) == devices;
  }

  predicate Listed(s: Reg) {
    Keyed(s.devices) && Mirrors(s.channels, s.devices)
  }

  lemma InsertListed(s: Reg, d: Device)
    requires Listed(s)
    ensures Listed(Insert(s, d))
  {
    BroadcastMirrors(s.channels, s.devices, Attached(d));
  }

  lemma RemoveListed(s: Reg, id: U64, shut: bool)
    requires Listed(s)
    ensures Listed(Remove(s, id, shut))
  {
    BroadcastMirrors(s.channels, s.devices, Detached(id));
  }

  lemma {:induction false} RemoveAllListed(s: Reg, ids: seq<U64>)
    requires Listed(s)
    ensures Listed(RemoveAll(s, ids))
    decreases |ids|
  {
    if ids != [] {
      RemoveListed(s, ids[0], true);
      RemoveAllListed(Remove(s, ids[0], true), ids[1..]);
    }
  }

  lemma NextListed(s: Reg, e: Event)
    requires Listed(s) && Can(s, e)
    ensures Listed(Next(s, e))
  {
    match e
    case DiscoveredNetwork(udid, address, service, connectionType, _, _) =>
      InsertListed(Allocate(s), NetworkDevice(s, udid, address, service, connectionType));
    case DiscoveredUsb(udid, location, product, speed, _, _) =>
      InsertListed(Allocate(s), UsbDevice(s, udid, location, product, speed));
    case DeferredAdd(i) => InsertListed(s.(deferred := Without(s.deferred, i)), s.deferred[i].device);
    case RemoveDevice(_, _, ids) => RemoveAllListed(s, ids);
    case HeartbeatFailed(_, found) => if found.Some? { RemoveListed(s, found.value, false); }
    case Subscribe(l, order) => JoinMirrors(s.channels, s.devices, l, order);
    case _ =>
  }

  lemma {:induction false} RunListed(s: Reg, events: seq<Event>)
    requires Listed(s) && IsRun(s, events)
    ensures Listed(Run(s, events))
    decreases |events|
  {
    if events != [] {
      NextListed(s, events[0]);
      RunListed(Next(s, events[0]), events[1..]);
    }
  }

  ghost predicate Reachable(s: Reg) {
    exists shim, useHeartbeat, events ::
      IsRun(Init(shim, useHeartbeat), events) && Run(Init(shim, useHeartbeat), events) == s
  }

  /** Listener refinement. In every reachable state, what a registered listener has been sent, its
      initial dump included, replays to exactly the current table: whatever the order of adds,
      deferred adds, removals and heartbeat failures, and even past a wrap of the id counter. */
  lemma ListenersMirrorTable(s: Reg, l: nat)
    requires Reachable(s) && l in s.channels.listeners
    ensures l in s.channels.logs && Replay(s.channels.logs[l]) == s.devices
  {
    var shim, useHeartbeat, events :|
      IsRun(Init(shim, useHeartbeat), events) && Run(Init(shim, useHeartbeat), events) == s;
    RunListed(Init(shim, useHeartbeat), events);
  }

  // ---- ids -------------------------------------------------------------------------------

  /** The id counter has not wrapped. */
  predicate Unwrapped(s: Reg) {
    s.base + s.given <= 0x1_0000_0000_0000_0000
  }

  predicate InRange(s: Reg, id: U64) {
    s.base <= id < s.base + s.given
  }

  /** The id is, or has been, in the table. */
  predicate Used(s: Reg, id: U64) {
    id in s.devices || id in s.past.removed
  }

  predicate Ids(s: Reg) {
    && s.lastIndex == (s.base + s.given) % 0x1_0000_0000_0000_0000
    && Keyed(s.devices)
    && (forall id :: Used(s, id) ==> InRange(s, id))
    && (forall id :: id in s.devices ==> id !in s.past.removed)
    && (forall i :: 0 <= i < |s.deferred| ==>
          InRange(s, s.deferred[i].device.deviceId) && !Used(s, s.deferred[i].device.deviceId))
    && (forall i, j :: 0 <= i < j < |s.deferred| ==> s.deferred[i].device.deviceId != s.deferred[j].device.deviceId)
  }

  /** The next id, short of a wrap, is new to everyone. */
  lemma NextIdIsNew(s: Reg)
    requires Ids(s) && Unwrapped(Allocate(s))
    ensures s.lastIndex == s.base + s.given && !InRange(s, s.lastIndex) && !Used(s, s.lastIndex)
    ensures InRange(Allocate(s), s.lastIndex)
  {
  }

  lemma InsertIds(s: Reg, d: Device)
    requires Ids(s) && InRange(s, d.deviceId) && !Used(s, d.deviceId)
    requires forall i :: 0 <= i < |s.deferred| ==> s.deferred[i].device.deviceId != d.deviceId
    ensures Ids(Insert(s, d))
  {
    assert forall id :: Used(Insert(s, d), id) ==> Used(s, id) || id == d.deviceId;
  }

  lemma AllocateIds(s: Reg)
    requires Ids(s)
    ensures Ids(Allocate(s))
  {
    var s' := Allocate(s);
    assert forall id :: Used(s', id) ==> Used(s, id);
    assert forall id :: InRange(s, id) ==> InRange(s', id);
  }

  lemma DeferIds(s: Reg, h: Heartbeat)
    requires Ids(s) && InRange(s, h.device.deviceId) && !Used(s, h.device.deviceId)
    requires forall i :: 0 <= i < |s.deferred| ==> s.deferred[i].device.deviceId != h.device.deviceId
    ensures Ids(s.(deferred := s.deferred + [h]))
  {
    var s' := s.(deferred := s.deferred + [h]);
    assert forall id :: Used(s', id) ==> Used(s, id);
    assert forall id :: InRange(s, id) ==> InRange(s', id);
  }

  lemma UndeferIds(s: Reg, i: nat)
    requires Ids(s) && i < |s.deferred|
    ensures var s' := s.(deferred := Without(s.deferred, i));
            && Ids(s')
            && forall j :: 0 <= j < |s'.deferred| ==> s'.deferred[j].device.deviceId != s.deferred[i].device.deviceId
  {
    var s' := s.(deferred := Without(s.deferred, i));
    assert forall id :: Used(s', id) ==> Used(s, id);
    assert forall id :: InRange(s, id) ==> InRange(s', id);
    forall j | 0 <= j < |s'.deferred|
      ensures s'.deferred[j] == s.deferred[if j < i then j else j + 1]
    {
    }
  }

  lemma RemoveIds(s: Reg, id: U64, shut: bool)
    requires Ids(s) && id in s.devices
    ensures Ids(Remove(s, id, shut))
  {
    var s' := Remove(s, id, shut);
    assert forall i :: Used(s', i) ==> Used(s, i);
  }

  // ---- what each channel has been sent ---------------------------------------------------

  predicate LogOk(log: seq<Notice>, s: Reg) {
    && Orderly(log)
    && forall i :: 0 <= i < |log| ==>
         Used(s, IdOf(log[i])) && (log[i].Detached? ==> log[i].id in s.past.removed)
  }

  predicate Logs(s: Reg) {
    forall l :: l in s.channels.logs ==> LogOk(s.channels.logs[l], s)
  }

  lemma OrderlySnoc(log: seq<Notice>, n: Notice)
    requires Orderly(log)
    requires forall i :: 0 <= i < |log| && IdOf(log[i]) == IdOf(n) ==> log[i].Attached? && n.Detached?
    requires n.Detached? ==> AttachedBefore(log, |log|, n.id)
    ensures Orderly(log + [n])
  {
    var log' := log + [n];
    forall j | 0 <= j < |log'| && log'[j].Detached? ensures AttachedBefore(log', j, log'[j].id) {
      var i :| 0 <= i < j && log[i].Attached? && log[i].device.deviceId == log'[j].id;
      assert log'[i] == log[i];
    }
  }

  /** A device in the replayed table has been attached. */
  lemma {:induction false} ReplayHas(log: seq<Notice>, id: U64)
    requires id in Replay(log)
    ensures AttachedBefore(log, |log|, id)
    decreases |log|
  {
    var front, last := log[..|log| - 1], log[|log| - 1];
    if last.Attached? && last.device.deviceId == id {
    } else {
      ReplayHas(front, id);
      var i :| 0 <= i < |front| && front[i].Attached? && front[i].device.deviceId == id;
      assert log[i] == front[i];
    }
  }

  /** Nothing is forgotten from `s` to `s'`. */
  predicate Grows(s: Reg, s': Reg) {
    (forall id :: Used(s, id) ==> Used(s', id)) && s.past.removed <= s'.past.removed
  }

  lemma LogsGrow(s: Reg, s': Reg)
    requires Logs(s) && Grows(s, s') && s'.channels.logs == s.channels.logs
    ensures Logs(s')
  {
    forall l | l in s'.channels.logs ensures LogOk(s'.channels.logs[l], s') {
      assert LogOk(s.channels.logs[l], s);
    }
  }

  lemma AttachLog(log: seq<Notice>, s: Reg, s': Reg, d: Device)
    requires LogOk(log, s) && Grows(s, s') && !Used(s, d.deviceId) && Used(s', d.deviceId)
    ensures LogOk(log + [Attached(d)], s')
  {
    OrderlySnoc(log, Attached(d));
  }

  lemma DetachLog(log: seq<Notice>, s: Reg, s': Reg, id: U64)
    requires LogOk(log, s) && Grows(s, s') && id !in s.past.removed && id in s'.past.removed && id in Replay(log)
    ensures LogOk(log + [Detached(id)], s')
  {
    ReplayHas(log, id);
    OrderlySnoc(log, Detached(id));
  }

  lemma InsertLogs(s: Reg, d: Device)
    requires Logs(s) && Listed(s) && !Used(s, d.deviceId)
    ensures Logs(Insert(s, d))
  {
    var s' := Insert(s, d);
    BroadcastReaches(s.channels, Attached(d));
    assert Used(s', d.deviceId);
    forall l | l in s'.channels.logs ensures LogOk(s'.channels.logs[l], s') {
      assert LogOk(s.channels.logs[l], s);
      AttachLog(s.channels.logs[l], s, s', d);
    }
  }

  lemma RemoveLogs(s: Reg, id: U64, shut: bool)
    requires Logs(s) && Listed(s) && Ids(s) && id in s.devices
    ensures Logs(Remove(s, id, shut))
  {
    var s' := Remove(s, id, shut);
    BroadcastReaches(s.channels, Detached(id));
    assert Grows(s, s');
    forall l | l in s'.channels.logs ensures LogOk(s'.channels.logs[l], s') {
      assert LogOk(s.channels.logs[l], s);
      if l in s.channels.listeners {
        DetachLog(s.channels.logs[l], s, s', id);
      }
    }
  }

  lemma {:induction false} DumpAt(devices: map<U64, Device>, order: seq<U64>)
    requires Keyed(devices) && forall id :: id in order ==> id in devices
    ensures |Dump(devices, order)| == |order|
    ensures forall i :: 0 <= i < |order| ==>
              Dump(devices, order)[i].Attached? && IdOf(Dump(devices, order)[i]) == order[i]
  {
    if order != [] {
      DumpAt(devices, order[1..]);
      forall i | 0 <= i < |order|
        ensures Dump(devices, order)[i].Attached? && IdOf(Dump(devices, order)[i]) == order[i]
      {
        if i > 0 {
          assert Dump(devices, order)[i] == Dump(devices, order[1..])[i - 1];
        }
      }
    }
  }

  lemma JoinLogs(s: Reg, l: nat, order: seq<U64>)
    requires Logs(s) && Keyed(s.devices) && Distinct(order) && forall id :: id in order <==> id in s.devices
    ensures Logs(s.(channels := Join(s.channels, l, Dump(s.devices, order))))
  {
    var dump := Dump(s.devices, order);
    var s' := s.(channels := Join(s.channels, l, dump));
    DumpAt(s.devices, order);
    forall i | 0 <= i < |dump| ensures Used(s', IdOf(dump[i])) {
      assert order[i] in order;
    }
    forall k | k in s'.channels.logs ensures LogOk(s'.channels.logs[k], s') {
      if k != l {
        assert LogOk(s.channels.logs[k], s);
      }
    }
  }

  // ---- USB handles -----------------------------------------------------------------------

  predicate Held(s: Reg, handle: nat) {
    exists id :: id in s.handles && s.handles[id] == handle
  }

  ghost predicate Handles(s: Reg) {
    && (forall id :: id in s.handles ==> id in s.devices && s.devices[id].connectionType == "USB")
    && (forall i, j :: i in s.handles && j in s.handles && s.handles[i] == s.handles[j] ==> i == j)
    && (forall h :: h in s.past.accepted <==> Held(s, h) || h in s.past.shut || h in s.past.replaced)
    && (forall h :: Held(s, h) ==> h !in s.past.shut && h !in s.past.replaced)
    && s.past.shut !! s.past.replaced
    && s.past.lost == {}
  }

  lemma InsertHandles(s: Reg, d: Device)
    requires Handles(s) && d.deviceId !in s.devices
    ensures Handles(Insert(s, d))
  {
    assert forall h :: Held(Insert(s, d), h) <==> Held(s, h);
  }

  lemma SetHandles(s: Reg, id: U64, handle: nat)
    requires Handles(s) && id in s.devices && s.devices[id].connectionType == "USB" && handle !in s.past.accepted
    ensures Handles(SetHandle(s, id, handle))
  {
    var s' := SetHandle(s, id, handle);
    assert s'.handles[id] == handle;
    forall h ensures Held(s', h) <==> h == handle || (Held(s, h) && !(id in s.handles && s.handles[id] == h)) {
      if i :| i in s.handles && s.handles[i] == h && i != id {
        assert s'.handles[i] == h;
      }
      if i :| i in s'.handles && s'.handles[i] == h && i != id {
        assert s.handles[i] == h;
      }
    }
    assert id in s.handles ==> Held(s, s.handles[id]);
  }

  lemma RemoveHandles(s: Reg, id: U64, shut: bool)
    requires Handles(s) && id in s.devices && (shut || s.devices[id].connectionType != "USB")
    ensures Handles(Remove(s, id, shut))
  {
    var s' := Remove(s, id, shut);
    forall h ensures Held(s', h) <==> Held(s, h) && !(id in s.handles && s.handles[id] == h) {
      if i :| i in s.handles && s.handles[i] == h && i != id {
        assert s'.handles[i] == h;
      }
      if i :| i in s'.handles && s'.handles[i] == h {
        assert s.handles[i] == h;
      }
    }
    assert id in s.handles ==> Held(s, s.handles[id]);
  }

  // ---- open sockets ----------------------------------------------------------------------

  predicate OpeningAt(s: Reg, i: nat, id: U64, kill: nat)
    requires i < |s.past.openings|
  {
    s.past.openings[i].id == id && s.past.openings[i].kill == kill
  }

  predicate Registered(s: Reg, id: U64, kill: nat) {
    id in s.sockets && kill in s.sockets[id]
  }

  /** Every opening waits in the table or has been killed; and it has been killed if and only if its
      device was removed after it. */
  predicate OpeningOk(s: Reg, o: Opening) {
    && (o.gone ==> o.id in s.past.removed)
    && (o.kill in s.past.killed <==> o.id in s.past.removed && !o.gone)
    && (Registered(s, o.id, o.kill) <==> o.kill !in s.past.killed)
  }

  ghost predicate Sockets(s: Reg) {
    && (forall i :: 0 <= i < |s.past.openings| ==> OpeningOk(s, s.past.openings[i]))
    && (forall i, j :: 0 <= i < j < |s.past.openings| ==> s.past.openings[i].kill != s.past.openings[j].kill)
    && (forall id, k :: Registered(s, id, k) ==> exists i :: 0 <= i < |s.past.openings| && OpeningAt(s, i, id, k))
    && (forall k :: k in s.past.killed ==> exists i :: 0 <= i < |s.past.openings| && s.past.openings[i].kill == k)
  }

  lemma OpenSockets(s: Reg, id: U64, kill: nat)
    requires Sockets(s) && forall i :: 0 <= i < |s.past.openings| ==> s.past.openings[i].kill != kill
    ensures Sockets(OnOpen(s, id, kill))
  {
    var s' := OnOpen(s, id, kill);
    var n := |s.past.openings|;
    assert !Registered(s, id, kill);
    forall i | 0 <= i <= n ensures OpeningOk(s', s'.past.openings[i]) {
      if i < n {
        assert OpeningOk(s, s.past.openings[i]);
      }
    }
    forall p, k | Registered(s', p, k) ensures exists i :: 0 <= i <= n && OpeningAt(s', i, p, k) {
      if p == id && k == kill {
        assert OpeningAt(s', n, p, k);
      } else {
        assert Registered(s, p, k);
        var i :| 0 <= i < n && OpeningAt(s, i, p, k);
        assert OpeningAt(s', i, p, k);
      }
    }
    forall k | k in s'.past.killed ensures exists i :: 0 <= i <= n && s'.past.openings[i].kill == k {
      var i :| 0 <= i < n && s.past.openings[i].kill == k;
      assert s'.past.openings[i].kill == k;
    }
  }

  lemma RemoveOpening(s: Reg, id: U64, shut: bool, i: nat)
    requires Sockets(s) && id !in s.past.removed && i < |s.past.openings|
    ensures OpeningOk(Remove(s, id, shut), s.past.openings[i])
  {
    var s', o := Remove(s, id, shut), s.past.openings[i];
    assert OpeningOk(s, o);
    if Registered(s, id, o.kill) {
      var j :| 0 <= j < |s.past.openings| && OpeningAt(s, j, id, o.kill);
      assert j == i;
    }
    assert o.kill in s'.past.killed <==> o.kill in s.past.killed || Registered(s, id, o.kill);
    assert Registered(s', o.id, o.kill) <==> Registered(s, o.id, o.kill) && o.id != id;
  }

  lemma RemoveSockets(s: Reg, id: U64, shut: bool)
    requires Sockets(s) && id !in s.past.removed
    ensures Sockets(Remove(s, id, shut))
  {
    var s' := Remove(s, id, shut);
    forall i | 0 <= i < |s'.past.openings| ensures OpeningOk(s', s'.past.openings[i]) {
      RemoveOpening(s, id, shut, i);
    }
    forall p, k | Registered(s', p, k) ensures exists i :: 0 <= i < |s'.past.openings| && OpeningAt(s', i, p, k) {
      assert Registered(s, p, k);
      var i :| 0 <= i < |s.past.openings| && OpeningAt(s, i, p, k);
      assert OpeningAt(s', i, p, k);
    }
    forall k | k in s'.past.killed ensures exists i :: 0 <= i < |s'.past.openings| && s'.past.openings[i].kill == k {
      if k !in s.past.killed {
        assert Registered(s, id, k);
        var i :| 0 <= i < |s.past.openings| && OpeningAt(s, i, id, k);
      }
    }
  }

  lemma SameSockets(s: Reg, s': Reg)
    requires Sockets(s) && s'.sockets == s.sockets
    requires s'.past.openings == s.past.openings && s'.past.killed == s.past.killed && s'.past.removed == s.past.removed
    ensures Sockets(s')
  {
    forall i | 0 <= i < |s'.past.openings| ensures OpeningOk(s', s'.past.openings[i]) {
      assert OpeningOk(s, s.past.openings[i]);
    }
    forall p, k | Registered(s', p, k) ensures exists i :: 0 <= i < |s'.past.openings| && OpeningAt(s', i, p, k) {
      assert Registered(s, p, k);
      var i :| 0 <= i < |s.past.openings| && OpeningAt(s, i, p, k);
      assert OpeningAt(s', i, p, k);
    }
  }

  // ---- everything together ---------------------------------------------------------------

  /** attached_plist insists on a service name and an address for a "Network" device. */
  predicate PlistOk(d: Device) {
    d.connectionType == "Network" ==> d.serviceName.Some? && d.networkAddress.Some?
  }

  predicate Plists(s: Reg) {
    && (forall id :: id in s.devices ==> PlistOk(s.devices[id]))
    && (forall i :: 0 <= i < |s.deferred| ==> PlistOk(s.deferred[i].device))
  }

  ghost predicate Good(s: Reg) {
    Listed(s) && Ids(s) && Logs(s) && Handles(s) && Sockets(s) && Plists(s)
  }

  lemma GoodInsert(s: Reg, d: Device)
    requires Good(s) && InRange(s, d.deviceId) && !Used(s, d.deviceId) && PlistOk(d)
    requires forall i :: 0 <= i < |s.deferred| ==> s.deferred[i].device.deviceId != d.deviceId
    ensures Good(Insert(s, d))
  {
    InsertListed(s, d);
    InsertIds(s, d);
    InsertLogs(s, d);
    InsertHandles(s, d);
    SameSockets(s, Insert(s, d));
  }

  lemma GoodAllocate(s: Reg)
    requires Good(s)
    ensures Good(Allocate(s))
  {
    var s' := Allocate(s);
    AllocateIds(s);
    LogsGrow(s, s');
    SameSockets(s, s');
    assert forall h :: Held(s', h) <==> Held(s, h);
  }

  lemma GoodRemove(s: Reg, id: U64, shut: bool)
    requires Good(s) && id in s.devices && (shut || s.devices[id].connectionType != "USB")
    ensures Good(Remove(s, id, shut))
  {
    RemoveListed(s, id, shut);
    RemoveIds(s, id, shut);
    RemoveLogs(s, id, shut);
    RemoveHandles(s, id, shut);
    RemoveSockets(s, id, shut);
  }

  lemma {:induction false} GoodRemoveAll(s: Reg, ids: seq<U64>)
    requires Good(s) && Distinct(ids) && forall id :: id in ids ==> id in s.devices
    ensures Good(RemoveAll(s, ids))
    decreases |ids|
  {
    if ids != [] {
      GoodRemove(s, ids[0], true);
      GoodRemoveAll(Remove(s, ids[0], true), ids[1..]);
    }
  }

  lemma GoodUndefer(s: Reg, i: nat)
    requires Good(s) && i < |s.deferred|
    ensures Good(s.(deferred := Without(s.deferred, i)))
  {
    var s' := s.(deferred := Without(s.deferred, i));
    UndeferIds(s, i);
    LogsGrow(s, s');
    SameSockets(s, s');
    assert forall h :: Held(s', h) <==> Held(s, h);
  }

  lemma GoodDefer(s: Reg, h: Heartbeat)
    requires Good(s) && InRange(s, h.device.deviceId) && !Used(s, h.device.deviceId) && PlistOk(h.device)
    requires forall i :: 0 <= i < |s.deferred| ==> s.deferred[i].device.deviceId != h.device.deviceId
    ensures Good(s.(deferred := s.deferred + [h]))
  {
    var s' := s.(deferred := s.deferred + [h]);
    DeferIds(s, h);
    LogsGrow(s, s');
    SameSockets(s, s');
    assert forall h :: Held(s', h) <==> Held(s, h);
  }

  lemma GoodHandle(s: Reg, id: U64, handle: nat)
    requires Good(s) && id in s.devices && s.devices[id].connectionType == "USB" && handle !in s.past.accepted
    ensures Good(SetHandle(s, id, handle))
  {
    var s' := SetHandle(s, id, handle);
    SetHandles(s, id, handle);
    LogsGrow(s, s');
    SameSockets(s, s');
    assert forall i :: Used(s', i) <==> Used(s, i);
  }

  lemma GoodOpen(s: Reg, id: U64, kill: nat)
    requires Good(s) && Can(s, OpenSocket(id, kill))
    ensures Good(OnOpen(s, id, kill))
  {
    var s' := OnOpen(s, id, kill);
    OpenSockets(s, id, kill);
    LogsGrow(s, s');
    assert forall i :: Used(s', i) <==> Used(s, i);
    assert forall h :: Held(s', h) <==> Held(s, h);
  }

  lemma GoodJoin(s: Reg, l: nat, order: seq<U64>)
    requires Good(s) && Can(s, Subscribe(l, order))
    ensures Good(Next(s, Subscribe(l, order)))
  {
    var s' := Next(s, Subscribe(l, order));
    JoinMirrors(s.channels, s.devices, l, order);
    JoinLogs(s, l, order);
    SameSockets(s, s');
    assert forall i :: Used(s', i) <==> Used(s, i);
    assert forall h :: Held(s', h) <==> Held(s, h);
  }

  /** The desk and the heartbeats that have come up are bookkeeping beside the tables. */
  lemma GoodAside(s: Reg, beating: map<U64, Device>, desk: Desk)
    requires Good(s)
    ensures Good(s.(beating := beating, desk := desk))
  {
    var s' := s.(beating := beating, desk := desk);
    assert forall id :: Used(s', id) <==> Used(s, id);
    LogsGrow(s, s');
    SameSockets(s, s');
    assert forall h :: Held(s', h) <==> Held(s, h);
  }

  /** The same transition with the requester left out. */
  function Registers(s: Reg, d: Device, request: Option<nat>): Reg {
    if s.useHeartbeat then Allocate(s).(deferred := s.deferred + [Heartbeat(d, request)])
    else Insert(Allocate(s), d)
  }

  lemma GoodRegisters(s: Reg, d: Device, request: Option<nat>)
    requires Good(s) && d.deviceId == s.lastIndex && PlistOk(d)
    ensures Unwrapped(Allocate(s)) ==> Good(Registers(s, d, request))
  {
    if Unwrapped(Allocate(s)) {
      GoodAllocate(s);
      NextIdIsNew(s);
      if s.useHeartbeat {
        GoodDefer(Allocate(s), Heartbeat(d, request));
      } else {
        GoodInsert(Allocate(s), d);
      }
    }
  }

  lemma GoodNetwork(s: Reg, udid: string, address: nat, service: string, connectionType: string, paired: bool,
                    request: Option<nat>)
    requires Good(s)
    ensures var s' := OnNetwork(s, udid, address, service, connectionType, paired, request);
            Unwrapped(s') ==> Good(s')
  {
    var s' := OnNetwork(s, udid, address, service, connectionType, paired, request);
    if HasPair(s.devices, udid, connectionType) || !paired {
      GoodAside(s, s.beating, s'.desk);
    } else if Unwrapped(s') {
      var d := NetworkDevice(s, udid, address, service, connectionType);
      GoodRegisters(s, d, request);
      GoodAside(Registers(s, d, request), s.beating, s'.desk);
    }
  }

  lemma GoodUsb(s: Reg, udid: string, location: U64, product: U64, speed: U64, handle: nat, found: Option<U64>)
    requires Good(s) && Can(s, DiscoveredUsb(udid, location, product, speed, handle, found))
    ensures var s' := OnUsb(s, udid, location, product, speed, handle, found);
            Unwrapped(s') ==> Good(s')
  {
    var s' := OnUsb(s, udid, location, product, speed, handle, found);
    if found.Some? {
      GoodHandle(s, found.value, handle);
    } else if Unwrapped(s') {
      GoodAllocate(s);
      NextIdIsNew(s);
      var d := UsbDevice(s, udid, location, product, speed);
      GoodInsert(Allocate(s), d);
      GoodHandle(Insert(Allocate(s), d), d.deviceId, handle);
    }
  }

  lemma GoodDies(s: Reg, l: nat)
    requires Good(s)
    ensures Good(Next(s, ReceiverDrops(l)))
  {
    var s' := Next(s, ReceiverDrops(l));
    SameSockets(s, s');
    LogsGrow(s, s');
    assert forall i :: Used(s', i) <==> Used(s, i);
    assert forall h :: Held(s', h) <==> Held(s, h);
  }

  lemma GoodDeferred(s: Reg, i: nat)
    requires Good(s) && i < |s.deferred|
    ensures Good(OnDeferred(s, i))
  {
    var s1, s' := s.(deferred := Without(s.deferred, i)), OnDeferred(s, i);
    GoodUndefer(s, i);
    UndeferIds(s, i);
    GoodInsert(s1, s.deferred[i].device);
    GoodAside(Insert(s1, s.deferred[i].device), s'.beating, s'.desk);
  }

  lemma GoodNext(s: Reg, e: Event)
    requires Good(s) && Can(s, e) && Unwrapped(Next(s, e))
    ensures Good(Next(s, e))
  {
    match e
    case DiscoveredNetwork(udid, address, service, connectionType, paired, request) =>
      GoodNetwork(s, udid, address, service, connectionType, paired, request);
    case DiscoveredUsb(udid, location, product, speed, handle, found) =>
      GoodUsb(s, udid, location, product, speed, handle, found);
    case DeferredAdd(i) => GoodDeferred(s, i);
    case HeartbeatGivesUp(i) =>
      GoodUndefer(s, i);
      GoodAside(s.(deferred := Without(s.deferred, i)), s.beating, Next(s, e).desk);
    case RemoveDevice(_, _, ids) => GoodRemoveAll(s, ids);
    case HeartbeatFailed(_, found) => if found.Some? { GoodRemove(s, found.value, false); }
    case OpenSocket(id, kill) => GoodOpen(s, id, kill);
    case Subscribe(l, order) => GoodJoin(s, l, order);
    case ReceiverDrops(l) => GoodDies(s, l);
  }
}
