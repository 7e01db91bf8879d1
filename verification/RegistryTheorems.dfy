/** What holds in every state the device manager can reach. */
module RegistryTheorems {
  import opened Prelude
  import opened Registry
  import opened RegistryProofs

  lemma {:induction false} RemoveAllCounts(s: Reg, ids: seq<U64>)
    ensures RemoveAll(s, ids).given == s.given && RemoveAll(s, ids).base == s.base
    ensures RemoveAll(s, ids).deferred == s.deferred && RemoveAll(s, ids).useHeartbeat == s.useHeartbeat
    ensures forall id :: id in RemoveAll(s, ids).devices ==>
              id in s.devices && RemoveAll(s, ids).devices[id] == s.devices[id]
    decreases |ids|
  {
    if ids != [] {
      RemoveAllCounts(Remove(s, ids[0], true), ids[1..]);
    }
  }

  lemma NextCounts(s: Reg, e: Event)
    requires Can(s, e)
    ensures s.given <= Next(s, e).given && Next(s, e).base == s.base && Next(s, e).useHeartbeat == s.useHeartbeat
  {
    if e.RemoveDevice? {
      RemoveAllCounts(s, e.ids);
    }
  }

  lemma {:induction false} RunGood(s: Reg, events: seq<Event>)
    requires Good(s) && IsRun(s, events)
    ensures s.given <= Run(s, events).given && Run(s, events).base == s.base
    ensures Unwrapped(Run(s, events)) ==> Good(Run(s, events))
    decreases |events|
  {
    if events != [] {
      NextCounts(s, events[0]);
      var s1 := Next(s, events[0]);
      if Unwrapped(s1) {
        GoodNext(s, events[0]);
        RunGood(s1, events[1..]);
      } else {
        RunCounts(s1, events[1..]);
      }
    }
  }

  lemma {:induction false} RunCounts(s: Reg, events: seq<Event>)
    requires IsRun(s, events)
    ensures s.given <= Run(s, events).given && Run(s, events).base == s.base
    decreases |events|
  {
    if events != [] {
      NextCounts(s, events[0]);
      RunCounts(Next(s, events[0]), events[1..]);
    }
  }

  lemma ReachableGood(s: Reg)
    requires Reachable(s) && Unwrapped(s)
    ensures Good(s) && (s.base == 1 || s.base == SHIM_NETWORK_ID_BASE)
  {
    var shim, useHeartbeat, events :|
      IsRun(Init(shim, useHeartbeat), events) && Run(Init(shim, useHeartbeat), events) == s;
    var s0 := Init(shim, useHeartbeat);
    assert Good(s0) by {
      assert forall h :: !Held(s0, h);
      assert forall id, k :: !Registered(s0, id, k);
    }
    RunGood(s0, events);
  }

  lemma {:induction false} RunSnoc(s: Reg, events: seq<Event>, e: Event)
    requires IsRun(s, events) && Can(Run(s, events), e)
    ensures IsRun(s, events + [e]) && Run(s, events + [e]) == Next(Run(s, events), e)
    decreases |events|
  {
    if events == [] {
      assert events + [e] == [e] && [e][1..] == [];
      assert IsRun(Next(s, e), []);
    } else {
      assert (events + [e])[1..] == events[1..] + [e];
      RunSnoc(Next(s, events[0]), events[1..], e);
    }
  }

  /** What follows a reachable state is reachable. */
  lemma Reaches(s: Reg, e: Event) returns (s': Reg)
    requires Reachable(s) && Can(s, e)
    ensures s' == Next(s, e) && Reachable(s')
  {
    var shim, useHeartbeat, events :|
      IsRun(Init(shim, useHeartbeat), events) && Run(Init(shim, useHeartbeat), events) == s;
    RunSnoc(Init(shim, useHeartbeat), events, e);
    s' := Next(s, e);
  }

  lemma Starts(shim: bool, useHeartbeat: bool) returns (s: Reg)
    ensures s == Init(shim, useHeartbeat) && Reachable(s)
  {
    s := Init(shim, useHeartbeat);
    assert IsRun(s, []) && Run(s, []) == s;
  }

  // ---- ids -------------------------------------------------------------------------------

  /** Id discipline: short of a wrap, the ids of listed and deferred devices are pairwise distinct,
      each entry is filed under its own, none has ever been used by a device since removed, and
      every channel has seen each id attached at most once and detached at most once, after that. */
  lemma IdsNeverReused(s: Reg)
    requires Reachable(s) && Unwrapped(s)
    ensures forall id :: id in s.devices ==> s.devices[id].deviceId == id && id !in s.past.removed
    ensures forall i :: 0 <= i < |s.deferred| ==>
              s.deferred[i].device.deviceId !in s.devices && s.deferred[i].device.deviceId !in s.past.removed
    ensures forall i, j :: 0 <= i < j < |s.deferred| ==> s.deferred[i].device.deviceId != s.deferred[j].device.deviceId
    ensures forall l :: l in s.channels.logs ==> Orderly(s.channels.logs[l])
  {
    ReachableGood(s);
    forall i | 0 <= i < |s.deferred|
      ensures s.deferred[i].device.deviceId !in s.devices && s.deferred[i].device.deviceId !in s.past.removed
    {
      assert !Used(s, s.deferred[i].device.deviceId);
    }
    forall l | l in s.channels.logs ensures Orderly(s.channels.logs[l]) {
      assert LogOk(s.channels.logs[l], s);
    }
  }

  /** Shim partition: with an upstream, and short of a wrap, a Connect for any id the manager lists,
      defers or has ever announced stays local; a Connect that goes upstream is for none of them. */
  lemma ShimPartition(s: Reg, id: U64)
    requires Reachable(s) && Unwrapped(s) && s.base == SHIM_NETWORK_ID_BASE
    ensures ConnectTarget(s, true, id) == ToUpstream
            <==> id < SHIM_NETWORK_ID_BASE
    ensures ConnectTarget(s, true, id) == ToUpstream ==>
              && id !in s.devices
              && (forall i :: 0 <= i < |s.deferred| ==> s.deferred[i].device.deviceId != id)
              && (forall l, i :: l in s.channels.logs && 0 <= i < |s.channels.logs[l]| ==>
                    IdOf(s.channels.logs[l][i]) != id)
  {
    ReachableGood(s);
    if id < SHIM_NETWORK_ID_BASE {
      assert !Used(s, id);
      forall l, i | l in s.channels.logs && 0 <= i < |s.channels.logs[l]| ensures IdOf(s.channels.logs[l][i]) != id {
        assert LogOk(s.channels.logs[l], s);
        assert Used(s, IdOf(s.channels.logs[l][i]));
      }
    }
  }

  /** A Connect for a listed device reaches it: a "Network" device at its address, a "USB" device
      that has a handle through its mux task. It cannot be served only for a "USB" entry that a
      client added by hand and no backend has claimed, or for a type that is neither. */
  lemma ConnectReachesDevice(s: Reg, shim: bool, id: U64)
    requires Reachable(s) && Unwrapped(s) && id in s.devices
    requires s.base == if shim then SHIM_NETWORK_ID_BASE else 1
    ensures var d, t := s.devices[id], ConnectTarget(s, shim, id);
            && (d.connectionType == "Network" ==> d.networkAddress.Some? && t == ToAddress(d.networkAddress.value))
            && (id in s.handles ==> t == ToMux(s.handles[id]))
            && (t == Unreachable <==> d.connectionType != "Network" && id !in s.handles)
            && t != NoDevice && t != ToUpstream
  {
    ReachableGood(s);
    assert Used(s, id) && PlistOk(s.devices[id]);
  }

  // ---- duplicates ------------------------------------------------------------------------

  predicate SamePair(d: Device, d': Device) {
    Matches(d, d'.serialNumber, d'.connectionType)
  }

  /** No two entries share a udid and a connection type. */
  predicate Unique(devices: map<U64, Device>) {
    forall i, j :: i in devices && j in devices && SamePair(devices[i], devices[j]) ==> i == j
  }

  predicate Undeferred(s: Reg) {
    !s.useHeartbeat && s.deferred == [] && Unique(s.devices)
  }

  lemma {:induction false} RunUndeferred(s: Reg, events: seq<Event>)
    requires Undeferred(s) && IsRun(s, events)
    ensures Undeferred(Run(s, events))
    decreases |events|
  {
    if events != [] {
      NextUndeferred(s, events[0]);
      RunUndeferred(Next(s, events[0]), events[1..]);
    }
  }

  lemma InsertUnique(devices: map<U64, Device>, d: Device)
    requires Unique(devices) && !HasPair(devices, d.serialNumber, d.connectionType)
    ensures Unique(devices[d.deviceId := d])
  {
  }

  lemma NextUndeferred(s: Reg, e: Event)
    requires Undeferred(s) && Can(s, e)
    ensures Undeferred(Next(s, e))
  {
    match e
    case DiscoveredNetwork(udid, address, service, connectionType, paired, _) =>
      if !HasPair(s.devices, udid, connectionType) {
        InsertUnique(s.devices, NetworkDevice(s, udid, address, service, connectionType));
      }
    case DiscoveredUsb(udid, location, product, speed, handle, found) =>
      if found.None? {
        InsertUnique(s.devices, UsbDevice(s, udid, location, product, speed));
      }
    case RemoveDevice(_, _, ids) => RemoveAllCounts(s, ids);
    case _ =>
  }

  /** With heartbeat off there are never two entries for the same udid and connection type. */
  lemma NoDuplicates(s: Reg, shim: bool, events: seq<Event>)
    requires IsRun(Init(shim, false), events) && Run(Init(shim, false), events) == s
    ensures Unique(s.devices)
  {
    RunUndeferred(Init(shim, false), events);
  }

  lemma DeferredDuplicates(s: Reg, i: nat)
    requires Good(s) && i < |s.deferred| && Unique(s.devices)
    ensures Unique(OnDeferred(s, i).devices)
            <==> !HasPair(s.devices, s.deferred[i].device.serialNumber, s.deferred[i].device.connectionType)
  {
    var d := s.deferred[i].device;
    var devices := s.devices[d.deviceId := d];
    assert !Used(s, d.deviceId);
    if HasPair(s.devices, d.serialNumber, d.connectionType) {
      var id :| id in s.devices && Matches(s.devices[id], d.serialNumber, d.connectionType);
      assert id in devices && SamePair(devices[id], devices[d.deviceId]);
    } else {
      InsertUnique(s.devices, d);
    }
  }

  /** With heartbeat on they appear in exactly one way: a deferred add of a pair that has meanwhile
      been listed. Every other message keeps the table free of duplicates. */
  lemma DuplicatesOnlyByDeferredAdd(s: Reg, e: Event)
    requires Reachable(s) && Can(s, e) && Unwrapped(Next(s, e)) && Unique(s.devices)
    ensures Unique(Next(s, e).devices)
            <==> (e.DeferredAdd? ==>
                    !HasPair(s.devices, s.deferred[e.i].device.serialNumber, s.deferred[e.i].device.connectionType))
  {
    NextCounts(s, e);
    ReachableGood(s);
    if e.DeferredAdd? {
      DeferredDuplicates(s, e.i);
    } else {
      OthersKeepUnique(s, e);
    }
  }

  lemma OthersKeepUnique(s: Reg, e: Event)
    requires Can(s, e) && Unique(s.devices) && !e.DeferredAdd?
    ensures Unique(Next(s, e).devices)
  {
    match e
    case DiscoveredNetwork(udid, address, service, connectionType, paired, _) =>
      if !HasPair(s.devices, udid, connectionType) {
        InsertUnique(s.devices, NetworkDevice(s, udid, address, service, connectionType));
      }
    case DiscoveredUsb(udid, location, product, speed, handle, found) =>
      if found.None? {
        InsertUnique(s.devices, UsbDevice(s, udid, location, product, speed));
      }
    case RemoveDevice(_, _, ids) => RemoveAllCounts(s, ids);
    case _ =>
  }

  ghost predicate HasDuplicates(s: Reg) {
    Reachable(s) && !Unique(s.devices)
  }

  /** A discovery of the same device over the network, by nobody who waits for a Result. */
  function Seen(): Event {
    DiscoveredNetwork("udid", 0, "service", "Network", true, None)
  }

  /** Heartbeat on, and the device has come up as id `n` - 1, on an empty table with `n` ids given. */
  predicate Fresh(s: Reg, n: nat) {
    s.base == 1 && s.useHeartbeat && s.given == n && s.lastIndex == 1 + n && s.deferred == [] && s.devices == map[]
  }

  lemma ComesUp(s: Reg, n: nat) returns (s': Reg)
    requires Reachable(s) && Fresh(s, n) && n < 10
    ensures Reachable(s') && s'.devices.Keys == {1 + n} && Matches(s'.devices[1 + n], "udid", "Network")
    ensures s'.base == 1 && s'.useHeartbeat && s'.given == n + 1 && s'.lastIndex == n + 2 && s'.deferred == []
    ensures s'.beating == s.beating[1 + n := s'.devices[1 + n]]
  {
    var s1 := Reaches(s, Seen());
    assert |s1.deferred| == 1;
    s' := Reaches(s1, DeferredAdd(0));
  }

  /** The table holds two "Network" entries of one device, 1 and 2, both with a heartbeat. */
  ghost predicate Doubled(s: Reg) {
    && Reachable(s) && s.devices.Keys == {1, 2} && s.beating.Keys == {1, 2}
    && Matches(s.devices[1], "udid", "Network") && Matches(s.devices[2], "udid", "Network")
    && s.beating[1].serialNumber == "udid"
  }

  lemma TwoSeen() returns (s: Reg)
    ensures Reachable(s) && s.devices == map[] && s.beating == map[] && |s.deferred| == 2
    ensures s.deferred[0].device.deviceId == 1 && s.deferred[1].device.deviceId == 2
    ensures Matches(s.deferred[0].device, "udid", "Network") && Matches(s.deferred[1].device, "udid", "Network")
  {
    var s0 := Starts(false, true);
    var s1 := Reaches(s0, Seen());
    s := Reaches(s1, Seen());
  }

  lemma BothComeUp() returns (s: Reg)
    ensures Doubled(s)
  {
    var s2 := TwoSeen();
    var s3 := Reaches(s2, DeferredAdd(0));
    assert s3.deferred == s2.deferred[1..];
    s := Reaches(s3, DeferredAdd(0));
  }

  /** It does happen: two discoveries of one device both pass the check before either heartbeat has
      come up. */
  lemma DuplicatesHappen()
    ensures exists s :: HasDuplicates(s)
  {
    var s := BothComeUp();
    assert 1 in s.devices && 2 in s.devices && SamePair(s.devices[1], s.devices[2]);
    assert HasDuplicates(s);
  }

  // ---- heartbeats that fail ----------------------------------------------------------------

  /** A device whose heartbeat has come up is or was in the table, under its own id. */
  predicate Beats(s: Reg) {
    forall id :: id in s.beating ==>
      && Used(s, id) && s.beating[id].deviceId == id
      && (id in s.devices ==> s.devices[id] == s.beating[id])
  }

  lemma InsertBeats(s: Reg, d: Device)
    requires Beats(s) && !Used(s, d.deviceId)
    ensures Beats(Insert(s, d))
    ensures Beats(Insert(s, d).(beating := s.beating[d.deviceId := d]))
  {
    assert forall id :: id in s.beating ==> id != d.deviceId && Used(Insert(s, d), id);
  }

  lemma {:induction false} RemoveAllBeats(s: Reg, ids: seq<U64>)
    requires Beats(s)
    ensures Beats(RemoveAll(s, ids))
    decreases |ids|
  {
    if ids != [] {
      var s1 := Remove(s, ids[0], true);
      assert forall id :: Used(s, id) ==> Used(s1, id);
      RemoveAllBeats(s1, ids[1..]);
    }
  }

  lemma NetworkBeats(s: Reg, e: Event)
    requires Good(s) && Beats(s) && Can(s, e) && Unwrapped(Next(s, e)) && e.DiscoveredNetwork?
    ensures Beats(Next(s, e))
  {
    var s' := Next(s, e);
    if HasPair(s.devices, e.udid, e.connectionType) || !e.paired || s.useHeartbeat {
      assert forall id :: Used(s, id) ==> Used(s', id);
    } else {
      NextIdIsNew(s);
      var d := NetworkDevice(s, e.udid, e.address, e.service, e.connectionType);
      InsertBeats(s, d);
      assert forall id :: Used(Insert(s, d), id) ==> Used(s', id);
    }
  }

  lemma UsbBeats(s: Reg, e: Event)
    requires Good(s) && Beats(s) && Can(s, e) && Unwrapped(Next(s, e)) && e.DiscoveredUsb?
    ensures Beats(Next(s, e))
  {
    var s' := Next(s, e);
    if e.found.Some? {
      assert forall id :: Used(s, id) ==> Used(s', id);
    } else {
      NextIdIsNew(s);
      var d := UsbDevice(s, e.udid, e.location, e.product, e.speed);
      InsertBeats(s, d);
      assert forall id :: Used(Insert(s, d), id) ==> Used(s', id);
    }
  }

  lemma DeferredBeats(s: Reg, i: nat)
    requires Good(s) && Beats(s) && i < |s.deferred|
    ensures Beats(OnDeferred(s, i))
  {
    var d, s' := s.deferred[i].device, OnDeferred(s, i);
    assert !Used(s, d.deviceId);
    InsertBeats(s, d);
    var s1 := Insert(s, d).(beating := s.beating[d.deviceId := d]);
    assert forall id :: Used(s1, id) ==> Used(s', id);
  }

  lemma NextBeats(s: Reg, e: Event)
    requires Good(s) && Beats(s) && Can(s, e) && Unwrapped(Next(s, e))
    ensures Beats(Next(s, e))
  {
    match e
    case DiscoveredNetwork(_, _, _, _, _, _) => NetworkBeats(s, e);
    case DiscoveredUsb(_, _, _, _, _, _) => UsbBeats(s, e);
    case DeferredAdd(i) => DeferredBeats(s, i);
    case RemoveDevice(_, _, ids) => RemoveAllBeats(s, ids);
    case HeartbeatFailed(_, found) =>
      if found.Some? {
        assert forall id :: Used(s, id) ==> Used(Remove(s, found.value, false), id);
      }
    case _ => assert forall id :: Used(s, id) ==> Used(Next(s, e), id);
  }

  lemma {:induction false} RunBeats(s: Reg, events: seq<Event>)
    requires Good(s) && Beats(s) && IsRun(s, events) && Unwrapped(Run(s, events))
    ensures Beats(Run(s, events))
    decreases |events|
  {
    if events != [] {
      RunCounts(Next(s, events[0]), events[1..]);
      GoodNext(s, events[0]);
      NextBeats(s, events[0]);
      RunBeats(Next(s, events[0]), events[1..]);
    }
  }

  lemma ReachableBeats(s: Reg)
    requires Reachable(s) && Unwrapped(s)
    ensures Beats(s)
  {
    var shim, useHeartbeat, events :|
      IsRun(Init(shim, useHeartbeat), events) && Run(Init(shim, useHeartbeat), events) == s;
    var s0 := Starts(shim, useHeartbeat);
    RunCounts(s0, events);
    ReachableGood(s0);
    RunBeats(s0, events);
  }

  /** The failure of a heartbeat of device `udid` can remove `id`, and nothing else. */
  ghost predicate RemovesJust(s: Reg, udid: string, id: U64) {
    && Can(s, HeartbeatFailed(udid, Some(id)))
    && forall found :: Can(s, HeartbeatFailed(udid, found)) ==> found == Some(id)
  }

  /** A failing heartbeat names only the udid. On any table, with or without duplicates, what it
      removes is sure to be its own entry exactly if that is still listed, as a "Network" device, and
      no other "Network" device listed has its udid. */
  lemma FailureRemovesOwnIff(s: Reg, id: U64)
    requires Reachable(s) && Unwrapped(s) && id in s.beating
    ensures var udid := s.beating[id].serialNumber;
            RemovesJust(s, udid, id) <==>
              && id in s.devices && s.devices[id].connectionType == "Network"
              && forall other :: other in s.devices && Matches(s.devices[other], udid, "Network") ==> other == id
  {
    ReachableBeats(s);
    var udid := s.beating[id].serialNumber;
    if RemovesJust(s, udid, id) {
      forall other | other in s.devices && Matches(s.devices[other], udid, "Network") ensures other == id {
        assert Can(s, HeartbeatFailed(udid, Some(other)));
      }
    } else if id in s.devices && s.devices[id].connectionType == "Network" {
      assert Can(s, HeartbeatFailed(udid, Some(id)));
      var found :| Can(s, HeartbeatFailed(udid, found)) && found != Some(id);
      assert Matches(s.devices[id], udid, "Network");
    }
  }

  ghost predicate RemovesAnother(s: Reg, id: U64, found: U64) {
    && Reachable(s) && id in s.beating && found != id && found in s.devices && found in s.beating
    && Can(s, HeartbeatFailed(s.beating[id].serialNumber, Some(found)))
  }

  /** A device is removed and comes back before its first heartbeat has failed. */
  lemma FailureAfterReturn()
    ensures exists s :: RemovesAnother(s, 1, 2) && 1 !in s.devices
  {
    var s0 := Starts(false, true);
    var s1 := ComesUp(s0, 0);
    assert s1.devices[1].serialNumber == "udid";
    var s2 := Reaches(s1, RemoveDevice("udid", None, [1]));
    assert [1][1..] == [] && s2 == Remove(s1, 1, true);
    var s := ComesUp(s2, 1);
    assert RemovesAnother(s, 1, 2);
  }

  /** That happens in both ways: to a device that was removed and has come back, and to one listed
      twice, whose own entry then stays. */
  lemma FailureRemovesAnother()
    ensures exists s :: RemovesAnother(s, 1, 2) && 1 !in s.devices
    ensures exists s :: RemovesAnother(s, 1, 2) && 1 in s.devices && s.devices[1].connectionType == "Network"
  {
    FailureAfterReturn();
    var s := BothComeUp();
    assert RemovesAnother(s, 1, 2);
  }

  // ---- requests ----------------------------------------------------------------------------

  /** The requester waits for the heartbeat task that took its request along. */
  predicate WaitsFor(s: Reg, request: nat) {
    exists i :: 0 <= i < |s.deferred| && s.deferred[i].request == Some(request)
  }

  ghost predicate Requests(s: Reg) {
    && (forall r :: r in s.desk.asked <==> r in s.desk.answers || r in s.desk.dropped || WaitsFor(s, r))
    && (forall r :: r in s.desk.dropped ==> r !in s.desk.answers && !WaitsFor(s, r))
    && (forall r :: r in s.desk.answers ==> !WaitsFor(s, r))
    && (forall i, j :: 0 <= i < j < |s.deferred| && s.deferred[i].request.Some? ==>
          s.deferred[i].request != s.deferred[j].request)
  }

  lemma TakenOff(s: Reg, s': Reg, i: nat, ok: bool)
    requires Requests(s) && i < |s.deferred| && s'.deferred == Without(s.deferred, i)
    requires s'.desk == Answer(s.desk, s.deferred[i].request, ok)
    ensures Requests(s')
  {
    var gone := s.deferred[i].request;
    assert forall j :: 0 <= j < |s'.deferred| ==> s'.deferred[j] == s.deferred[if j < i then j else j + 1];
    forall r: nat ensures WaitsFor(s', r) <==> WaitsFor(s, r) && gone != Some(r) {
      if j :| 0 <= j < |s.deferred| && s.deferred[j].request == Some(r) && j != i {
        assert s'.deferred[if j < i then j else j - 1] == s.deferred[j];
      }
    }
    assert gone.Some? ==> WaitsFor(s, gone.value);
  }

  /** A request comes in and goes with the heartbeat task. */
  lemma TakenAlong(s: Reg, s': Reg, h: Heartbeat)
    requires Requests(s) && s'.deferred == s.deferred + [h] && s'.desk == Ask(s.desk, h.request)
    requires h.request.Some? ==> h.request.value !in s.desk.asked
    ensures Requests(s')
  {
    var n := |s.deferred|;
    assert h.request.Some? ==> !WaitsFor(s, h.request.value);
    forall r: nat ensures WaitsFor(s', r) <==> WaitsFor(s, r) || h.request == Some(r) {
      if WaitsFor(s, r) {
        var i :| 0 <= i < n && s.deferred[i].request == Some(r);
        assert s'.deferred[i].request == Some(r);
      }
      if h.request == Some(r) {
        assert s'.deferred[n].request == Some(r);
      }
    }
  }

  /** A request comes in and is answered or dropped at once. */
  lemma EndedAtOnce(s: Reg, s': Reg, request: Option<nat>)
    requires Requests(s) && s'.deferred == s.deferred && (request.Some? ==> request.value !in s.desk.asked)
    requires s'.desk == Drop(Ask(s.desk, request), request) || s'.desk == Answer(Ask(s.desk, request), request, true)
    ensures Requests(s')
  {
    assert request.Some? ==> !WaitsFor(s, request.value);
    assert forall r :: WaitsFor(s', r) <==> WaitsFor(s, r);
  }

  lemma NetworkRequests(s: Reg, e: Event)
    requires Requests(s) && Can(s, e) && e.DiscoveredNetwork?
    ensures Requests(Next(s, e))
  {
    var s' := Next(s, e);
    if s.useHeartbeat && e.paired && !HasPair(s.devices, e.udid, e.connectionType) {
      TakenAlong(s, s', Heartbeat(NetworkDevice(s, e.udid, e.address, e.service, e.connectionType), e.request));
    } else {
      EndedAtOnce(s, s', e.request);
    }
  }

  lemma {:induction false} RemoveAllDesk(s: Reg, ids: seq<U64>)
    ensures RemoveAll(s, ids).desk == s.desk && RemoveAll(s, ids).deferred == s.deferred
    decreases |ids|
  {
    if ids != [] {
      RemoveAllDesk(Remove(s, ids[0], true), ids[1..]);
    }
  }

  lemma NextRequests(s: Reg, e: Event)
    requires Requests(s) && Can(s, e)
    ensures Requests(Next(s, e))
  {
    var s' := Next(s, e);
    match e
    case DiscoveredNetwork(_, _, _, _, _, _) => NetworkRequests(s, e);
    case DeferredAdd(i) => TakenOff(s, s', i, true);
    case HeartbeatGivesUp(i) => TakenOff(s, s', i, false);
    case RemoveDevice(_, _, ids) =>
      RemoveAllDesk(s, ids);
      assert forall r :: WaitsFor(s', r) <==> WaitsFor(s, r);
    case _ => assert forall r :: WaitsFor(s', r) <==> WaitsFor(s, r);
  }

  lemma {:induction false} RunRequests(s: Reg, events: seq<Event>)
    requires Requests(s) && IsRun(s, events)
    ensures Requests(Run(s, events))
    decreases |events|
  {
    if events != [] {
      NextRequests(s, events[0]);
      RunRequests(Next(s, events[0]), events[1..]);
    }
  }

  /** Every request to add a device has come to exactly one end - a Result, or dropped without one
      because the device was listed or not paired - or is still with a heartbeat task. */
  lemma RequestsConserved(s: Reg, request: nat)
    requires Reachable(s)
    ensures request in s.desk.asked
            <==> request in s.desk.answers || request in s.desk.dropped || WaitsFor(s, request)
    ensures request in s.desk.dropped ==> request !in s.desk.answers && !WaitsFor(s, request)
    ensures request in s.desk.answers ==> !WaitsFor(s, request)
  {
    var shim, useHeartbeat, events :|
      IsRun(Init(shim, useHeartbeat), events) && Run(Init(shim, useHeartbeat), events) == s;
    var s0 := Starts(shim, useHeartbeat);
    assert forall r :: !WaitsFor(s0, r);
    RunRequests(s0, events);
  }

  // ---- USB handles and sockets -----------------------------------------------------------

  /** Every handle in the table belongs to a listed "USB" device. */
  lemma HandlesBelongToUsb(s: Reg, id: U64)
    requires Reachable(s) && Unwrapped(s) && id in s.handles
    ensures id in s.devices && s.devices[id].connectionType == "USB"
  {
    ReachableGood(s);
  }

  /** Of the handles taken in, each is in the table for exactly one device, or was shut down, or was
      replaced by a newer one for the same device; no removal ever drops one without shutting it
      down, a heartbeat failure never meets one. */
  lemma HandlesConserved(s: Reg, handle: nat)
    requires Reachable(s) && Unwrapped(s)
    ensures handle in s.past.accepted
            <==> Held(s, handle) || handle in s.past.shut || handle in s.past.replaced
    ensures Held(s, handle) ==> handle !in s.past.shut && handle !in s.past.replaced
    ensures forall i, j :: i in s.handles && j in s.handles && s.handles[i] == s.handles[j] ==> i == j
    ensures s.past.lost == {}
  {
    ReachableGood(s);
  }

  /** OpenSocket does not ask whether the device still exists. A socket is killed exactly if its
      device is removed after it was opened; one opened after the removal waits for ever. */
  lemma SocketKilledIff(s: Reg, i: nat)
    requires Reachable(s) && Unwrapped(s) && i < |s.past.openings|
    ensures var o := s.past.openings[i];
            && (o.kill in s.past.killed <==> o.id in s.past.removed && !o.gone)
            && (o.kill in s.past.killed <==> !(o.id in s.sockets && o.kill in s.sockets[o.id]))
  {
    ReachableGood(s);
    assert OpeningOk(s, s.past.openings[i]);
  }

  ghost predicate WaitsForEver(s: Reg, i: nat) {
    && Reachable(s) && i < |s.past.openings| && s.past.openings[i].gone
    && s.past.openings[i].id in s.past.removed && s.past.openings[i].kill !in s.past.killed
  }

  /** It does happen: a device goes while a session to it is being set up. */
  lemma LateSocketHappens()
    ensures exists s, i :: WaitsForEver(s, i)
  {
    var s0 := Starts(false, false);
    var s1 := Reaches(s0, DiscoveredUsb("udid", 0, 0, 0, 7, None));
    assert s1.devices.Keys == {1} && s1.devices[1].serialNumber == "udid";
    var s2 := Reaches(s1, RemoveDevice("udid", None, [1]));
    assert [1][1..] == [] && s2 == Remove(s1, 1, true);
    var s := Reaches(s2, OpenSocket(1, 3));
    assert WaitsForEver(s, 0);
  }

  /** attached_plist never fails: every device that is or will be listed as "Network" has a service
      name and an address. */
  lemma PlistsNeverFail(s: Reg)
    requires Reachable(s) && Unwrapped(s)
    ensures forall id :: id in s.devices ==> PlistOk(s.devices[id])
    ensures forall i :: 0 <= i < |s.deferred| ==> PlistOk(s.deferred[i].device)
  {
    ReachableGood(s);
  }
}
