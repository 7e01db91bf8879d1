/** What each message to the device manager does, exactly, as its clients and listeners see it; and
    whose USB handle a device has. */
module RegistryEffects {
  import opened Prelude
  import opened Registry
  import opened RegistryProofs
  import opened RegistryTheorems

  // ---- listeners -------------------------------------------------------------------------

  /** Every listener that still receives has been sent `ns`, in order, and nobody else anything; those
      that do not are forgotten if there was anything to send. */
  ghost predicate Told(c: Channels, c': Channels, ns: seq<Notice>) {
    && c'.dead == c.dead && c'.logs.Keys == c.logs.Keys
    && (forall l :: l in c'.listeners <==> l in c.listeners && (ns == [] || l !in c.dead))
    && (forall l :: l in c.logs ==>
          c'.logs[l] == if l in c.listeners && l !in c.dead then c.logs[l] + ns else c.logs[l])
  }

  lemma BroadcastTells(c: Channels, devices: map<U64, Device>, n: Notice)
    requires Mirrors(c, devices)
    ensures Told(c, Broadcast(c, n), [n])
  {
    BroadcastReaches(c, n);
  }

  lemma Regroup(log: seq<Notice>, a: seq<Notice>, b: seq<Notice>)
    ensures log + a + b == log + (a + b)
  {
  }

  lemma LogTwice(c: Channels, c1: Channels, c2: Channels, a: seq<Notice>, b: seq<Notice>, l: nat)
    requires a != [] && Told(c, c1, a) && Told(c1, c2, b) && l in c.logs
    ensures l in c2.logs
    ensures c2.logs[l] == if l in c.listeners && l !in c.dead then c.logs[l] + (a + b) else c.logs[l]
  {
    Regroup(c.logs[l], a, b);
  }

  lemma ToldTwice(c: Channels, c1: Channels, c2: Channels, a: seq<Notice>, b: seq<Notice>)
    requires a != [] && Told(c, c1, a) && Told(c1, c2, b)
    ensures Told(c, c2, a + b)
  {
    var ab := a + b;
    assert ab != [] by { assert |ab| >= 1; }
    forall l | l in c.logs
      ensures l in c2.logs && c2.logs[l] == if l in c.listeners && l !in c.dead then c.logs[l] + ab else c.logs[l]
    {
      LogTwice(c, c1, c2, a, b, l);
    }
  }

  // ---- counters --------------------------------------------------------------------------

  predicate Counted(s: Reg) {
    s.lastInterface == (1 + s.given) % 0x1_0000_0000_0000_0000
  }

  lemma {:induction false} RemoveAllCounted(s: Reg, ids: seq<U64>)
    ensures RemoveAll(s, ids).lastInterface == s.lastInterface && RemoveAll(s, ids).given == s.given
    decreases |ids|
  {
    if ids != [] {
      RemoveAllCounted(Remove(s, ids[0], true), ids[1..]);
    }
  }

  lemma NextCounted(s: Reg, e: Event)
    requires Counted(s) && Can(s, e)
    ensures Counted(Next(s, e))
  {
    match e
    case RemoveDevice(_, _, ids) => RemoveAllCounted(s, ids);
    case DiscoveredNetwork(_, _, _, _, _, _) => NetworkCounted(s, e);
    case DiscoveredUsb(_, _, _, _, _, _) => UsbCounted(s, e);
    case _ => assert Next(s, e).lastInterface == s.lastInterface && Next(s, e).given == s.given;
  }

  lemma NetworkCounted(s: Reg, e: Event)
    requires Counted(s) && Can(s, e) && e.DiscoveredNetwork?
    ensures Counted(Next(s, e))
  {
    var s' := Next(s, e);
    assert (s'.lastInterface == s.lastInterface && s'.given == s.given)
        || (s'.lastInterface == Allocate(s).lastInterface && s'.given == Allocate(s).given);
  }

  lemma UsbCounted(s: Reg, e: Event)
    requires Counted(s) && Can(s, e) && e.DiscoveredUsb?
    ensures Counted(Next(s, e))
  {
    var s' := Next(s, e);
    assert (s'.lastInterface == s.lastInterface && s'.given == s.given)
        || (s'.lastInterface == Allocate(s).lastInterface && s'.given == Allocate(s).given);
  }

  lemma {:induction false} RunCounted(s: Reg, events: seq<Event>)
    requires Counted(s) && IsRun(s, events)
    ensures Counted(Run(s, events))
    decreases |events|
  {
    if events != [] {
      NextCounted(s, events[0]);
      RunCounted(Next(s, events[0]), events[1..]);
    }
  }

  lemma ReachableCounted(s: Reg)
    requires Reachable(s)
    ensures Counted(s)
  {
    var shim, useHeartbeat, events :|
      IsRun(Init(shim, useHeartbeat), events) && Run(Init(shim, useHeartbeat), events) == s;
    RunCounted(Init(shim, useHeartbeat), events);
  }

  // ---- devices that come -----------------------------------------------------------------

  /** The device listed under `id` has this udid and connection type. */
  predicate IsListed(s: Reg, id: U64, udid: string, connectionType: string) {
    id in s.devices && s.devices[id].serialNumber == udid && s.devices[id].connectionType == connectionType
  }

  /** Device `d` has joined the table, and its listeners know. */
  ghost predicate Joins(s: Reg, s': Reg, d: Device) {
    s'.devices == s.devices[d.deviceId := d] && Told(s.channels, s'.channels, [Attached(d)])
  }

  predicate SameTables(s: Reg, s': Reg) {
    && s'.devices == s.devices && s'.handles == s.handles && s'.sockets == s.sockets && s'.channels == s.channels
  }

  /** A device seen on the network is passed over, its requester without an answer, if it is listed
      under that type or has no pairing record. Otherwise it gets the next id - the n-th given out,
      counted from 1 or from 0x10000000 - and the next interface index, with the address and the
      service it was seen under; with heartbeat off it joins the table and the requester is told 1, and
      with heartbeat on that waits for its heartbeat. */
  lemma NetworkEffect(s: Reg, e: Event)
    requires Reachable(s) && Can(s, e) && e.DiscoveredNetwork? && s.base + s.given < 0x1_0000_0000_0000_0000
    ensures var s', udid, connectionType := Next(s, e), e.udid, e.connectionType;
            && s'.handles == s.handles && s'.sockets == s.sockets
            && if !e.paired || exists id :: IsListed(s, id, udid, connectionType) then
                 && SameTables(s, s') && s'.deferred == s.deferred && s'.given == s.given
                 && (e.request.Some? ==> e.request.value in s'.desk.dropped && s'.desk.answers == s.desk.answers)
               else
                 var id := s.base + s.given;
                 var d := Device(connectionType, id, (1 + s.given) % 0x1_0000_0000_0000_0000, udid, Some(e.address),
                                 Some(e.service), None, None, None);
                 && s'.given == s.given + 1 && id !in s.devices
                 && if s.useHeartbeat then
                      && SameTables(s, s') && s'.deferred == s.deferred + [Heartbeat(d, e.request)]
                      && s'.desk.answers == s.desk.answers && s'.desk.dropped == s.desk.dropped
                    else
                      && Joins(s, s', d) && s'.deferred == s.deferred
                      && (e.request.Some? ==> s'.desk.answers == s.desk.answers[e.request.value := true])
  {
    NewId(s);
    ListedIs(s, e.udid, e.connectionType);
    ReachableListed(s);
    BroadcastTells(s.channels, s.devices, Attached(NetworkDevice(s, e.udid, e.address, e.service, e.connectionType)));
  }

  /** The ids about to be given out. */
  lemma NewId(s: Reg)
    requires Reachable(s) && s.base + s.given < 0x1_0000_0000_0000_0000
    ensures s.lastIndex == s.base + s.given && s.lastIndex !in s.devices && s.lastIndex !in s.handles
    ensures s.lastInterface == (1 + s.given) % 0x1_0000_0000_0000_0000
    ensures forall id :: id in s.devices ==> s.base <= id
  {
    ReachableCounted(s);
    ReachableGood(s);
    NextIdIsNew(s);
    forall id | id in s.devices ensures s.base <= id {
      assert Used(s, id) && InRange(s, id);
    }
  }

  lemma ListedIs(s: Reg, udid: string, connectionType: string)
    ensures HasPair(s.devices, udid, connectionType) <==> exists id :: IsListed(s, id, udid, connectionType)
  {
    if id :| id in s.devices && Matches(s.devices[id], udid, connectionType) {
      assert IsListed(s, id, udid, connectionType);
    }
    if id :| IsListed(s, id, udid, connectionType) {
      assert Matches(s.devices[id], udid, connectionType);
    }
  }

  /** A device with a handle is reached through it, unless its id belongs to the upstream. */
  lemma HandleReaches(s: Reg, shim: bool, id: U64)
    requires id in s.devices && s.devices[id].connectionType == "USB" && id in s.handles
    requires (if shim then SHIM_NETWORK_ID_BASE else 1) <= id
    ensures ConnectTarget(s, shim, id) == ToMux(s.handles[id])
  {
  }

  lemma KnownUsb(s: Reg, e: Event, id: U64)
    requires Can(s, e) && e.DiscoveredUsb? && e.found == Some(id)
    ensures var s' := Next(s, e);
            && SameTables(s, s'.(handles := s.handles)) && s'.handles == s.handles[id := e.handle]
            && s'.deferred == s.deferred && s'.desk == s.desk && s'.given == s.given && IsListed(s', id, e.udid, "USB")
  {
  }

  lemma NewUsb(s: Reg, e: Event, id: U64)
    requires Can(s, e) && e.DiscoveredUsb? && e.found.None? && Listed(s) && Counted(s) && s.lastIndex == id
    ensures var s' := Next(s, e);
            && s'.sockets == s.sockets && s'.deferred == s.deferred && s'.desk == s.desk && s'.given == s.given + 1
            && s'.handles == s.handles[id := e.handle] && IsListed(s', id, e.udid, "USB")
            && Joins(s, s', Device("USB", id, (1 + s.given) % 0x1_0000_0000_0000_0000, e.udid, None, None,
                                   Some(e.speed), Some(e.location), Some(e.product)))
  {
    BroadcastTells(s.channels, s.devices, Attached(UsbDevice(s, e.udid, e.location, e.product, e.speed)));
  }

  /** A device seen on USB: one that is listed gets the new handle and nothing else changes; a new one
      gets the next id, joins the table with its location, product and speed, and has that handle.
      Either way a Connect for it now goes through that handle. */
  lemma UsbEffect(s: Reg, e: Event, shim: bool)
    requires Reachable(s) && Can(s, e) && e.DiscoveredUsb? && s.base + s.given < 0x1_0000_0000_0000_0000
    requires s.base == if shim then SHIM_NETWORK_ID_BASE else 1
    ensures var s', id := Next(s, e), if e.found.Some? then e.found.value else s.base + s.given;
            && s'.sockets == s.sockets && s'.deferred == s.deferred && s'.desk == s.desk
            && IsListed(s', id, e.udid, "USB") && s'.handles == s.handles[id := e.handle]
            && ConnectTarget(s', shim, id) == ToMux(e.handle)
            && if e.found.Some? then
                 s'.devices == s.devices && s'.channels == s.channels && s'.given == s.given
               else
                 && (forall other :: !IsListed(s, other, e.udid, "USB")) && id !in s.devices && s'.given == s.given + 1
                 && Joins(s, s', Device("USB", id, (1 + s.given) % 0x1_0000_0000_0000_0000, e.udid, None, None,
                                        Some(e.speed), Some(e.location), Some(e.product)))
  {
    NewId(s);
    ListedIs(s, e.udid, "USB");
    var id := if e.found.Some? then e.found.value else s.lastIndex;
    if e.found.Some? {
      KnownUsb(s, e, id);
    } else {
      ReachableCounted(s);
      ReachableListed(s);
      NewUsb(s, e, id);
    }
    HandleReaches(Next(s, e), shim, id);
  }

  /** A heartbeat that comes up lists its device, as it was seen, and tells its requester 1; one that
      gives up lists nothing and tells it 0. */
  lemma HeartbeatEffect(s: Reg, e: Event)
    requires Reachable(s) && Can(s, e) && (e.DeferredAdd? || e.HeartbeatGivesUp?) && Unwrapped(s)
    ensures var s', h := Next(s, e), s.deferred[e.i];
            && s'.deferred == s.deferred[..e.i] + s.deferred[e.i + 1..]
            && s'.handles == s.handles && s'.sockets == s.sockets && s'.given == s.given
            && (if e.DeferredAdd? then Joins(s, s', h.device) && h.device.deviceId !in s.devices else SameTables(s, s'))
            && s'.desk.dropped == s.desk.dropped
            && s'.desk.answers == if h.request.Some? then s.desk.answers[h.request.value := e.DeferredAdd?]
                                  else s.desk.answers
  {
    ReachableGood(s);
    assert !Used(s, s.deferred[e.i].device.deviceId);
    BroadcastTells(s.channels, s.devices, Attached(s.deferred[e.i].device));
  }

  // ---- devices that go -------------------------------------------------------------------

  function Detaches(ids: seq<U64>): seq<Notice> {
    if ids == [] then [] else [Detached(ids[0])] + Detaches(ids[1..])
  }

  /** `s'` is `s` without the devices `ids`, their handles and their sockets, and the listeners know. */
  ghost predicate Gone(s: Reg, s': Reg, ids: seq<U64>) {
    && (forall id :: id in s'.devices <==> id in s.devices && id !in ids)
    && (forall id :: id in s'.devices ==> s'.devices[id] == s.devices[id])
    && (forall id :: id in s'.handles <==> id in s.handles && id !in ids)
    && (forall id :: id in s'.handles ==> s'.handles[id] == s.handles[id])
    && (forall id :: id in s'.sockets <==> id in s.sockets && id !in ids)
    && (forall id :: id in s'.sockets ==> s'.sockets[id] == s.sockets[id])
    && Told(s.channels, s'.channels, Detaches(ids))
    && s'.deferred == s.deferred && s'.desk == s.desk && s'.given == s.given
  }

  lemma OneGone(s: Reg, id: U64, shut: bool)
    requires Listed(s)
    ensures Gone(s, Remove(s, id, shut), [id])
  {
    BroadcastTells(s.channels, s.devices, Detached(id));
    var ids := [id];
    assert ids[1..] == [] && Detaches(ids) == [Detached(id)] + Detaches([]);
  }

  lemma GoneTwice(s: Reg, s1: Reg, s2: Reg, id: U64, rest: seq<U64>)
    requires Gone(s, s1, [id]) && Gone(s1, s2, rest)
    ensures Gone(s, s2, [id] + rest)
  {
    var ids := [id] + rest;
    var one := [id];
    assert one[1..] == [] && Detaches(one) == [Detached(id)];
    assert ids[1..] == rest && Detaches(ids) == Detaches(one) + Detaches(rest);
    ToldTwice(s.channels, s1.channels, s2.channels, Detaches(one), Detaches(rest));
  }

  lemma {:induction false} AllGone(s: Reg, ids: seq<U64>)
    requires Listed(s)
    ensures Gone(s, RemoveAll(s, ids), ids)
    decreases |ids|
  {
    if ids != [] {
      var s1 := Remove(s, ids[0], true);
      OneGone(s, ids[0], true);
      RemoveListed(s, ids[0], true);
      AllGone(s1, ids[1..]);
      GoneTwice(s, s1, RemoveAll(s, ids), ids[0], ids[1..]);
      assert ids == [ids[0]] + ids[1..];
    }
  }

  /** A removal takes out exactly the devices with that udid and, if a type is named, of that type,
      each with one notice; the others, and what is theirs, are as they were. */
  lemma RemoveEffect(s: Reg, e: Event)
    requires Reachable(s) && Can(s, e) && e.RemoveDevice?
    ensures var s' := Next(s, e);
            && Gone(s, s', e.ids) && (forall i, j :: 0 <= i < j < |e.ids| ==> e.ids[i] != e.ids[j])
            && forall id :: id in s'.devices <==>
                 id in s.devices && !(s.devices[id].serialNumber == e.udid
                                      && (e.ofType.Some? ==> s.devices[id].connectionType == e.ofType.value))
  {
    ReachableListed(s);
    AllGone(s, e.ids);
  }

  lemma ReachableListed(s: Reg)
    requires Reachable(s)
    ensures Listed(s)
  {
    var shim, useHeartbeat, events :|
      IsRun(Init(shim, useHeartbeat), events) && Run(Init(shim, useHeartbeat), events) == s;
    RunListed(Init(shim, useHeartbeat), events);
  }

  /** A failed heartbeat takes out one "Network" device with its udid, if one is listed, with one
      notice; and otherwise nothing changes. */
  lemma FailureEffect(s: Reg, e: Event)
    requires Reachable(s) && Can(s, e) && e.HeartbeatFailed?
    ensures match e.found
            case Some(id) => IsListed(s, id, e.udid, "Network") && Gone(s, Next(s, e), [id])
            case None => Next(s, e) == s && forall id :: !IsListed(s, id, e.udid, "Network")
  {
    ReachableListed(s);
    ListedIs(s, e.udid, "Network");
    if e.found.Some? {
      OneGone(s, e.found.value, false);
    }
  }

  // ---- clients ---------------------------------------------------------------------------

  /** A new listener that receives is sent every listed device once, in some order, and is registered;
      one that does not is registered only if there was nothing to send. Nobody else notices. */
  lemma SubscribeEffect(s: Reg, l: nat, order: seq<U64>)
    requires Reachable(s) && Can(s, Subscribe(l, order))
    ensures var s' := Next(s, Subscribe(l, order));
            && s' == s.(channels := s'.channels) && s'.channels.dead == s.channels.dead
            && l in s'.channels.logs
            && (forall k :: k in s.channels.logs ==> k in s'.channels.logs && s'.channels.logs[k] == s.channels.logs[k])
            && s'.channels.listeners
               == s.channels.listeners + (if l !in s.channels.dead || s.devices == map[] then [l] else [])
            && (l !in s.channels.dead ==>
                  var log := s'.channels.logs[l];
                  && |log| == |order|
                  && (forall i :: 0 <= i < |order| ==> order[i] in s.devices && log[i] == Attached(s.devices[order[i]]))
                  && (forall i, j :: 0 <= i < j < |order| ==> order[i] != order[j])
                  && (forall id :: id in s.devices ==> id in order))
  {
    DumpIs(s.devices, order);
    assert s.devices == map[] <==> order == [] by {
      if order == [] {
        assert forall id :: id in s.devices ==> id in order;
      } else {
        assert order[0] in s.devices;
      }
    }
  }

  lemma {:induction false} DumpIs(devices: map<U64, Device>, order: seq<U64>)
    requires forall id :: id in order ==> id in devices
    ensures |Dump(devices, order)| == |order|
    ensures forall i :: 0 <= i < |order| ==> order[i] in devices && Dump(devices, order)[i] == Attached(devices[order[i]])
  {
    if order != [] {
      DumpIs(devices, order[1..]);
    }
  }

  /** Where a Connect goes, for every id: below 0x10000000 and with an upstream, there; otherwise, to
      the listed device of that id, at its address or through its handle, and nowhere if there is no
      such device or no way to it. */
  lemma ConnectGoes(s: Reg, shim: bool, id: U64)
    requires Reachable(s) && Unwrapped(s)
    ensures var t := ConnectTarget(s, shim, id);
            if shim && id < 0x1000_0000 then t == ToUpstream
            else if id !in s.devices then t == NoDevice
            else
              match s.devices[id].networkAddress
              case Some(address) =>
                t == (if s.devices[id].connectionType == "Network" then ToAddress(address)
                      else if id in s.handles then ToMux(s.handles[id]) else Unreachable)
              case None => t == if id in s.handles then ToMux(s.handles[id]) else Unreachable
  {
    ReachableGood(s);
    if id in s.devices {
      assert PlistOk(s.devices[id]);
    }
  }

  // ---- the newest handle wins ------------------------------------------------------------

  /** The device a discovery on USB files its handle under. */
  function FiledUnder(s: Reg, e: Event): U64
    requires e.DiscoveredUsb?
  {
    if e.found.Some? then e.found.value else s.lastIndex
  }

  /** The latest handle filed under each id, over a run that started with `filed`. */
  ghost function LatestById(s: Reg, events: seq<Event>, filed: map<U64, nat>): map<U64, nat>
    requires IsRun(s, events)
    decreases |events|
  {
    if events == [] then filed
    else
      var e := events[0];
      LatestById(Next(s, e), events[1..], if e.DiscoveredUsb? then filed[FiledUnder(s, e) := e.handle] else filed)
  }

  /** The latest handle discovered for each udid. */
  function LatestByUdid(events: seq<Event>, seen: map<string, nat>): map<string, nat> {
    if events == [] then seen
    else
      var e := events[0];
      LatestByUdid(events[1..], if e.DiscoveredUsb? then seen[e.udid := e.handle] else seen)
  }

  predicate Newest(s: Reg, filed: map<U64, nat>) {
    && (forall id :: id in s.handles ==> id in filed && filed[id] == s.handles[id])
    && (forall id :: id in filed ==> filed[id] in s.past.accepted && filed[id] !in s.past.replaced)
    && (forall i, j :: i in filed && j in filed && filed[i] == filed[j] ==> i == j)
    && s.past.replaced <= s.past.accepted
  }

  lemma FileNewest(s: Reg, filed: map<U64, nat>, id: U64, handle: nat)
    requires Newest(s, filed) && handle !in s.past.accepted
    ensures Newest(SetHandle(s, id, handle), filed[id := handle])
  {
  }

  lemma {:induction false} RemoveAllNewest(s: Reg, ids: seq<U64>, filed: map<U64, nat>)
    requires Newest(s, filed)
    ensures Newest(RemoveAll(s, ids), filed)
    decreases |ids|
  {
    if ids != [] {
      RemoveAllNewest(Remove(s, ids[0], true), ids[1..], filed);
    }
  }

  lemma NextNewest(s: Reg, e: Event, filed: map<U64, nat>)
    requires Newest(s, filed) && Can(s, e)
    ensures Newest(Next(s, e), if e.DiscoveredUsb? then filed[FiledUnder(s, e) := e.handle] else filed)
  {
    match e
    case DiscoveredUsb(udid, location, product, speed, handle, found) =>
      if found.Some? {
        FileNewest(s, filed, found.value, handle);
      } else {
        FileNewest(Insert(Allocate(s), UsbDevice(s, udid, location, product, speed)), filed, s.lastIndex, handle);
      }
    case RemoveDevice(_, _, ids) => RemoveAllNewest(s, ids, filed);
    case _ =>
  }

  lemma {:induction false} RunNewest(s: Reg, events: seq<Event>, filed: map<U64, nat>)
    requires Newest(s, filed) && IsRun(s, events)
    ensures Newest(Run(s, events), LatestById(s, events, filed))
    decreases |events|
  {
    if events != [] {
      var e := events[0];
      NextNewest(s, e, filed);
      RunNewest(Next(s, e), events[1..], if e.DiscoveredUsb? then filed[FiledUnder(s, e) := e.handle] else filed);
    }
  }

  /** Over any run, the handle of a listed device is the latest one that was filed under it, and no
      handle that has been replaced is the latest of any. */
  lemma NewestHandleWins(shim: bool, useHeartbeat: bool, events: seq<Event>, id: U64)
    requires IsRun(Init(shim, useHeartbeat), events)
    ensures var s, latest := Run(Init(shim, useHeartbeat), events), LatestById(Init(shim, useHeartbeat), events, map[]);
            && (id in s.handles ==> id in latest && s.handles[id] == latest[id])
            && (id in latest ==> latest[id] !in s.past.replaced)
  {
    RunNewest(Init(shim, useHeartbeat), events, map[]);
  }

  /** When `e` files a handle, no other device of its udid has one. */
  predicate Alone(s: Reg, e: Event)
    requires e.DiscoveredUsb?
  {
    forall id :: id in s.handles && id in s.devices && id != FiledUnder(s, e) ==> s.devices[id].serialNumber != e.udid
  }

  predicate SomeHandle(s: Reg, seen: map<string, nat>, id: U64)
    requires id in s.handles
  {
    && id in s.devices && s.devices[id].connectionType == "USB"
    && s.devices[id].serialNumber in seen && seen[s.devices[id].serialNumber] == s.handles[id]
  }

  predicate NewestByUdid(s: Reg, seen: map<string, nat>) {
    forall id :: id in s.handles ==> SomeHandle(s, seen, id)
  }

  lemma FileByUdid(s: Reg, s': Reg, seen: map<string, nat>, id: U64, udid: string, handle: nat)
    requires NewestByUdid(s, seen) && IsListed(s', id, udid, "USB") && s'.handles == s.handles[id := handle]
    requires forall other :: other in s.handles ==>
               other in s.devices && other in s'.devices && s'.devices[other] == s.devices[other]
    requires forall other :: other in s.handles ==> s.handles[other] != handle
    ensures NewestByUdid(s', seen[udid := handle])
            <==> forall other :: other in s.handles && other != id ==> s.devices[other].serialNumber != udid
  {
    if forall other :: other in s.handles && other != id ==> s.devices[other].serialNumber != udid {
      forall other | other in s'.handles ensures SomeHandle(s', seen[udid := handle], other) {
        assert other != id ==> SomeHandle(s, seen, other);
      }
    } else {
      var other :| other in s.handles && other != id && s.devices[other].serialNumber == udid;
      assert !SomeHandle(s', seen[udid := handle], other);
    }
  }

  lemma {:induction false} RemoveAllByUdid(s: Reg, ids: seq<U64>, seen: map<string, nat>)
    requires NewestByUdid(s, seen)
    ensures NewestByUdid(RemoveAll(s, ids), seen)
    decreases |ids|
  {
    if ids != [] {
      OneByUdid(s, ids[0], true, seen);
      RemoveAllByUdid(Remove(s, ids[0], true), ids[1..], seen);
    }
  }

  lemma OneByUdid(s: Reg, id: U64, shut: bool, seen: map<string, nat>)
    requires NewestByUdid(s, seen)
    ensures NewestByUdid(Remove(s, id, shut), seen)
  {
    forall other | other in Remove(s, id, shut).handles ensures SomeHandle(Remove(s, id, shut), seen, other) {
      assert SomeHandle(s, seen, other);
    }
  }

  lemma NetworkByUdid(s: Reg, e: Event, seen: map<string, nat>)
    requires Ids(s) && NewestByUdid(s, seen) && Can(s, e) && e.DiscoveredNetwork? && Unwrapped(Next(s, e))
    ensures NewestByUdid(Next(s, e), seen)
  {
    NetworkKeepsOthers(s, e);
    forall id | id in s.handles ensures id in s.devices && id in Next(s, e).devices
      && Next(s, e).devices[id] == s.devices[id] {
      assert SomeHandle(s, seen, id);
    }
    SameByUdid(s, e, seen);
  }

  lemma NetworkKeepsOthers(s: Reg, e: Event)
    requires Ids(s) && Can(s, e) && e.DiscoveredNetwork? && Unwrapped(Next(s, e))
    ensures Next(s, e).handles == s.handles
    ensures forall id :: id in s.devices ==> id in Next(s, e).devices && Next(s, e).devices[id] == s.devices[id]
  {
    if Next(s, e).given != s.given {
      NextIdIsNew(s);
    }
  }

  lemma DeferredByUdid(s: Reg, e: Event, seen: map<string, nat>)
    requires Ids(s) && NewestByUdid(s, seen) && Can(s, e) && e.DeferredAdd?
    ensures NewestByUdid(Next(s, e), seen)
  {
    assert !Used(s, s.deferred[e.i].device.deviceId);
    SameByUdid(s, e, seen);
  }

  lemma NextByUdid(s: Reg, e: Event, seen: map<string, nat>)
    requires Good(s) && NewestByUdid(s, seen) && Can(s, e) && Unwrapped(Next(s, e)) && (e.DiscoveredUsb? ==> Alone(s, e))
    ensures NewestByUdid(Next(s, e), if e.DiscoveredUsb? then seen[e.udid := e.handle] else seen)
  {
    match e
    case DiscoveredNetwork(_, _, _, _, _, _) => NetworkByUdid(s, e, seen);
    case DiscoveredUsb(_, _, _, _, _, _) => UsbByUdid(s, e, seen);
    case DeferredAdd(_) => DeferredByUdid(s, e, seen);
    case RemoveDevice(_, _, ids) => RemoveAllByUdid(s, ids, seen);
    case HeartbeatFailed(_, found) => if found.Some? { OneByUdid(s, found.value, false, seen); }
    case _ => SameByUdid(s, e, seen);
  }

  /** Only devices and handles matter. */
  lemma SameByUdid(s: Reg, e: Event, seen: map<string, nat>)
    requires Can(s, e) && NewestByUdid(s, seen) && Next(s, e).handles == s.handles
    requires forall id :: id in s.handles ==> id in Next(s, e).devices && id in s.devices
                                              && Next(s, e).devices[id] == s.devices[id]
    ensures NewestByUdid(Next(s, e), seen)
  {
    forall id | id in Next(s, e).handles ensures SomeHandle(Next(s, e), seen, id) {
      assert SomeHandle(s, seen, id);
    }
  }

  /** A discovery keeps the handles the latest of their udids exactly if no other device of its udid
      has one. */
  lemma UsbByUdid(s: Reg, e: Event, seen: map<string, nat>)
    requires Ids(s) && Handles(s) && NewestByUdid(s, seen) && Can(s, e) && e.DiscoveredUsb? && Unwrapped(Next(s, e))
    ensures NewestByUdid(Next(s, e), seen[e.udid := e.handle]) <==> Alone(s, e)
  {
    UsbKeepsOthers(s, e);
    NewHandle(s, e);
    forall id | id in s.handles ensures id in s.devices {
      assert SomeHandle(s, seen, id);
    }
    FileByUdid(s, Next(s, e), seen, FiledUnder(s, e), e.udid, e.handle);
  }

  lemma UsbKeepsOthers(s: Reg, e: Event)
    requires Ids(s) && Can(s, e) && e.DiscoveredUsb? && Unwrapped(Next(s, e))
    ensures Next(s, e).handles == s.handles[FiledUnder(s, e) := e.handle]
    ensures IsListed(Next(s, e), FiledUnder(s, e), e.udid, "USB")
    ensures forall id :: id in s.devices ==> id in Next(s, e).devices && Next(s, e).devices[id] == s.devices[id]
  {
    if e.found.None? {
      NextIdIsNew(s);
    }
  }

  lemma NewHandle(s: Reg, e: Event)
    requires Handles(s) && Can(s, e) && e.DiscoveredUsb?
    ensures forall id :: id in s.handles ==> s.handles[id] != e.handle
  {
    forall id | id in s.handles ensures s.handles[id] != e.handle {
      assert Held(s, s.handles[id]);
    }
  }

  /** Every discovery of the run finds no other device of its udid with a handle. */
  predicate AlwaysAlone(s: Reg, events: seq<Event>)
    requires IsRun(s, events)
    decreases |events|
  {
    events == []
    || ((events[0].DiscoveredUsb? ==> Alone(s, events[0])) && AlwaysAlone(Next(s, events[0]), events[1..]))
  }

  lemma {:induction false} RunByUdid(s: Reg, events: seq<Event>, seen: map<string, nat>)
    requires Good(s) && NewestByUdid(s, seen) && IsRun(s, events) && AlwaysAlone(s, events)
    requires Unwrapped(Run(s, events))
    ensures NewestByUdid(Run(s, events), LatestByUdid(events, seen))
    decreases |events|
  {
    if events != [] {
      var e := events[0];
      RunCounts(Next(s, e), events[1..]);
      GoodNext(s, e);
      NextByUdid(s, e, seen);
      RunByUdid(Next(s, e), events[1..], if e.DiscoveredUsb? then seen[e.udid := e.handle] else seen);
    }
  }

  /** As long as every discovery finds no other device of its udid with a handle, the handle of a listed
      device is the one of the latest discovery of its udid. */
  lemma LatestDiscoveryWins(shim: bool, useHeartbeat: bool, events: seq<Event>, id: U64)
    requires IsRun(Init(shim, useHeartbeat), events) && AlwaysAlone(Init(shim, useHeartbeat), events)
    requires Unwrapped(Run(Init(shim, useHeartbeat), events)) && id in Run(Init(shim, useHeartbeat), events).handles
    ensures var s, latest := Run(Init(shim, useHeartbeat), events), LatestByUdid(events, map[]);
            && id in s.devices && s.devices[id].serialNumber in latest
            && s.handles[id] == latest[s.devices[id].serialNumber]
  {
    var s0 := Starts(shim, useHeartbeat);
    RunCounts(s0, events);
    ReachableGood(s0);
    RunByUdid(s0, events, map[]);
    assert SomeHandle(Run(s0, events), LatestByUdid(events, map[]), id);
  }

  lemma UniqueAlone(s: Reg, e: Event)
    requires Unique(s.devices) && Handles(s) && Can(s, e) && e.DiscoveredUsb?
    ensures Alone(s, e)
  {
    forall id | id in s.handles && id in s.devices && id != FiledUnder(s, e)
      ensures s.devices[id].serialNumber != e.udid
    {
      if s.devices[id].serialNumber == e.udid {
        assert Matches(s.devices[id], e.udid, "USB");
        assert e.found.Some? && SamePair(s.devices[id], s.devices[e.found.value]);
      }
    }
  }

  /** With heartbeat off every run is like that. */
  lemma {:induction false} AloneWithoutHeartbeat(s: Reg, events: seq<Event>)
    requires Undeferred(s) && Good(s) && IsRun(s, events) && Unwrapped(Run(s, events))
    ensures AlwaysAlone(s, events)
    decreases |events|
  {
    if events != [] {
      var e := events[0];
      if e.DiscoveredUsb? {
        UniqueAlone(s, e);
      }
      RunCounts(Next(s, e), events[1..]);
      NextUndeferred(s, e);
      GoodNext(s, e);
      AloneWithoutHeartbeat(Next(s, e), events[1..]);
    }
  }

  /** A client can add a device by hand as "USB"; twice, with heartbeat on. */
  function ByHand(): Event {
    DiscoveredNetwork("udid", 0, "service", "USB", true, None)
  }

  /** From a start with heartbeat on, `events` lead to `s`, and `seen` are the latest discoveries. */
  ghost predicate Leads(events: seq<Event>, s: Reg, seen: map<string, nat>) {
    && IsRun(Init(false, true), events) && Run(Init(false, true), events) == s
    && LatestByUdid(events, map[]) == seen
  }

  lemma {:induction false} LatestSnoc(events: seq<Event>, e: Event, seen: map<string, nat>)
    ensures var latest := LatestByUdid(events, seen);
            LatestByUdid(events + [e], seen) == if e.DiscoveredUsb? then latest[e.udid := e.handle] else latest
  {
    if events == [] {
      assert events + [e] == [e] && [e][1..] == [];
    } else {
      assert (events + [e])[1..] == events[1..] + [e];
      LatestSnoc(events[1..], e, if events[0].DiscoveredUsb? then seen[events[0].udid := events[0].handle] else seen);
    }
  }

  lemma LeadsOn(events: seq<Event>, s: Reg, seen: map<string, nat>, e: Event)
    requires Leads(events, s, seen) && Can(s, e)
    ensures Leads(events + [e], Next(s, e), if e.DiscoveredUsb? then seen[e.udid := e.handle] else seen)
  {
    RunSnoc(Init(false, true), events, e);
    LatestSnoc(events, e, map[]);
  }

  lemma TwoByHand() returns (events: seq<Event>, s: Reg)
    ensures Leads(events, s, map[]) && s.devices == map[] && s.handles == map[] && s.past.accepted == {}
    ensures |s.deferred| == 2
    ensures s.deferred[0].device.deviceId == 1 && s.deferred[1].device.deviceId == 2
    ensures Matches(s.deferred[0].device, "udid", "USB") && Matches(s.deferred[1].device, "udid", "USB")
  {
    var s0 := Init(false, true);
    assert Leads([], s0, map[]);
    LeadsOn([], s0, map[], ByHand());
    var s1 := Next(s0, ByHand());
    LeadsOn([] + [ByHand()], s1, map[], ByHand());
    events, s := [] + [ByHand()] + [ByHand()], Next(s1, ByHand());
  }

  lemma BothByHand() returns (events: seq<Event>, s: Reg)
    ensures Leads(events, s, map[]) && s.devices.Keys == {1, 2} && s.handles == map[] && s.past.accepted == {}
    ensures IsListed(s, 1, "udid", "USB") && IsListed(s, 2, "udid", "USB")
  {
    var events2, s2 := TwoByHand();
    LeadsOn(events2, s2, map[], DeferredAdd(0));
    var s3 := Next(s2, DeferredAdd(0));
    assert s3.deferred == s2.deferred[1..];
    LeadsOn(events2 + [DeferredAdd(0)], s3, map[], DeferredAdd(0));
    events, s := events2 + [DeferredAdd(0)] + [DeferredAdd(0)], Next(s3, DeferredAdd(0));
  }

  ghost predicate KeepsOldHandle(events: seq<Event>, s: Reg, seen: map<string, nat>, id: U64) {
    && Leads(events, s, seen) && id in s.handles && id in s.devices && s.devices[id].serialNumber in seen
    && s.handles[id] != seen[s.devices[id].serialNumber]
  }

  /** Of a device that has been added by hand twice as "USB", one entry keeps the handle of the first
      discovery when the second discovery finds the other. */
  lemma OldHandleHappens()
    ensures exists events, s, seen :: KeepsOldHandle(events, s, seen, 1)
  {
    var events, s := BothByHand();
    var e1, e2 := DiscoveredUsb("udid", 0, 0, 0, 7, Some(1)), DiscoveredUsb("udid", 0, 0, 0, 8, Some(2));
    LeadsOn(events, s, map[], e1);
    var s1 := Next(s, e1);
    LeadsOn(events + [e1], s1, map[]["udid" := 7], e2);
    assert KeepsOldHandle(events + [e1] + [e2], Next(s1, e2), map[]["udid" := 7]["udid" := 8], 1);
  }

  /** Ids start at 1, with an upstream at 0x10000000, and that stays so. */
  lemma BaseStays(shim: bool, useHeartbeat: bool, events: seq<Event>)
    requires IsRun(Init(shim, useHeartbeat), events)
    ensures Run(Init(shim, useHeartbeat), events).base == if shim then 0x1000_0000 else 1
  {
    RunCounts(Init(shim, useHeartbeat), events);
  }
}
