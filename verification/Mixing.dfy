/** Which Connects expose the connection they open to another client's messages: bytes that enter its
    stream, or a close that ends it. */
module Mixing {
  import opened Prelude
  import opened Codec
  import opened ConnSpec
  import opened PortReuse
  import opened ReuseProofs
  import opened StalePumps
  import Lane
  import LaneProofs
  import MuxTheorems
  import System

  /** Connection `n` has acted on a message of another connection's pump. */
  ghost predicate Foreign(s: Shared, n: nat) {
    exists x :: x in Of(s.taken, n) && x.sender != n
  }

  ghost predicate CanBeForeign(s: Shared, n: nat) {
    exists events :: IsRun(s, events) && Foreign(Run(s, events), n)
  }

  /** Pump `id` was started on port `p`, and has a message in the queue, or would still send one if
      its connection lost its entry now. */
  predicate Threatens(s: Shared, id: nat, p: U16) {
    id in s.pumps && s.pumps[id].port == p && (!Silent(s, id) || InQueue(s, id))
  }

  predicate Threatened(s: Shared, p: U16) {
    exists id :: id in s.pumps && Threatens(s, id, p)
  }

  /** The channel to the writer takes the SYN and the ACK that make a connection. */
  predicate SendsTwo(w: Writer) {
    CanSend(w) && CanSend(AfterSend(w))
  }

  // ---- without a threat, never -------------------------------------------------------------

  /** Every earlier pump on connection `n`'s port is spent, with nothing in the queue. */
  ghost predicate Shut(s: Shared, n: nat) {
    && n < s.mux.connects
    && (PortOf(n) in s.mux.table ==> n <= s.mux.table[PortOf(n)].id)
    && (forall id :: id in s.pumps && id < n && PortOf(id) == PortOf(n) ==> Spent(s, id) && !InQueue(s, id))
    && !Foreign(s, n)
  }

  lemma PumpsStart(s: Shared, e: Event, id: nat)
    requires Known(s) && Can(s, e) && id in Next(s, e).pumps && id !in s.pumps
    ensures Holds(s, id, PortOf(id))
  {
    var k := Classify(s, e);
    match k {
      case Opens => ConnectIs(s, e.dport);
      case Entry(p, o, pieces) => assert EntryAt(s, p);
      case Pumps(x) => PumpIs(s, e, x);
      case Nothing =>
    }
  }

  lemma ShutActs(s: Shared, s': Shared, p: U16, o: Outcome, pieces: seq<Piece>, n: nat)
    requires Known(s) && Shut(s, n) && EntryEvent(s, s', p, o, pieces) && pieces != [] && o.conn.id == n
    ensures pieces[0].sender == n
  {
    SenderOf(s, p);
    assert pieces[0].sender == s.queue[0].sender;
    assert InQueue(s, s.queue[0].sender);
  }

  lemma EntryTakes(s: Shared, s': Shared, p: U16, o: Outcome, pieces: seq<Piece>, n: nat)
    requires Known(s) && Shut(s, n) && EntryEvent(s, s', p, o, pieces)
    ensures !Foreign(s', n)
  {
    if pieces != [] && o.conn.id == n {
      ShutActs(s, s', p, o, pieces, n);
    }
  }

  lemma ShutTakes(s: Shared, e: Event, n: nat)
    requires Known(s) && Can(s, e) && Shut(s, n)
    ensures !Foreign(Next(s, e), n)
  {
    var k := Classify(s, e);
    match k {
      case Opens => ConnectIs(s, e.dport);
      case Entry(p, o, pieces) => EntryTakes(s, Next(s, e), p, o, pieces, n);
      case Pumps(x) => PumpIs(s, e, x);
      case Nothing =>
    }
  }

  lemma LaterConnect(s: Shared, dport: U16, n: nat)
    requires Known(s) && n < s.mux.connects && (PortOf(n) in s.mux.table ==> n <= s.mux.table[PortOf(n)].id)
    ensures var s' := OnConnect(s, dport);
            n < s'.mux.connects && (PortOf(n) in s'.mux.table ==> n <= s'.mux.table[PortOf(n)].id)
  {
    ConnectIs(s, dport);
  }

  lemma LaterPump(s: Shared, e: Event, x: nat, n: nat)
    requires Can(s, e) && IsPumpEvent(e, x)
    ensures var s' := Next(s, e);
            && s'.mux.connects == s.mux.connects && (PortOf(n) in s'.mux.table <==> PortOf(n) in s.mux.table)
            && (PortOf(n) in s.mux.table ==> s'.mux.table[PortOf(n)].id == s.mux.table[PortOf(n)].id)
  {
    PumpIs(s, e, x);
    assert PortOf(n) in s.mux.table ==> OnlyPermit(s.mux.table[PortOf(n)], Next(s, e).mux.table[PortOf(n)]);
  }

  lemma LaterOutcome(s: Shared, s': Shared, p: U16, o: Outcome, pieces: seq<Piece>, n: nat)
    requires EntryEvent(s, s', p, o, pieces)
    ensures s'.mux.connects == s.mux.connects
    ensures PortOf(n) in s'.mux.table ==>
              PortOf(n) in s.mux.table && s'.mux.table[PortOf(n)].id == s.mux.table[PortOf(n)].id
  {
  }

  /** The entry on a port only ever gives way to a later one. */
  lemma LaterEntry(s: Shared, e: Event, n: nat)
    requires Known(s) && Can(s, e) && n < s.mux.connects
    requires PortOf(n) in s.mux.table ==> n <= s.mux.table[PortOf(n)].id
    ensures var s' := Next(s, e);
            && n < s'.mux.connects
            && (PortOf(n) in s'.mux.table ==> n <= s'.mux.table[PortOf(n)].id)
  {
    var k := Classify(s, e);
    match k {
      case Opens => LaterConnect(s, e.dport, n);
      case Entry(p, o, pieces) => LaterOutcome(s, Next(s, e), p, o, pieces, n);
      case Pumps(x) => LaterPump(s, e, x, n);
      case Nothing =>
    }
  }

  lemma NextShut(s: Shared, e: Event, n: nat)
    requires Known(s) && Can(s, e) && Shut(s, n)
    ensures Shut(Next(s, e), n)
  {
    var s' := Next(s, e);
    LaterEntry(s, e, n);
    ShutTakes(s, e, n);
    forall id | id in s'.pumps && id < n && PortOf(id) == PortOf(n) ensures Spent(s', id) && !InQueue(s', id) {
      if id !in s.pumps {
        PumpsStart(s, e, id);
      }
      SpentStays(s, e, id);
    }
  }

  /** A connection that cannot be established any more never acts on a message. */
  ghost predicate Stuck(s: Shared, n: nat) {
    n < s.mux.connects && n !in s.pumps && !CanSend(s.mux.writer) && !Foreign(s, n)
  }

  lemma NextStuck(s: Shared, e: Event, n: nat)
    requires Known(s) && Can(s, e) && Stuck(s, n)
    ensures Stuck(Next(s, e), n)
  {
    var k := Classify(s, e);
    match k {
      case Opens => ConnectIs(s, e.dport);
      case Entry(p, o, pieces) => assert EntryAt(s, p);
      case Pumps(x) => PumpIs(s, e, x);
      case Nothing =>
    }
  }

  lemma {:induction false} RunSafe(s: Shared, events: seq<Event>, n: nat)
    requires Inv(s) && IsRun(s, events) && (Shut(s, n) || Stuck(s, n))
    ensures !Foreign(Run(s, events), n)
    decreases |events|
  {
    if events != [] {
      if Shut(s, n) {
        NextShut(s, events[0], n);
      } else {
        NextStuck(s, events[0], n);
      }
      NextKeeps(s, events[0]);
      RunSafe(Next(s, events[0]), events[1..], n);
    }
  }

  lemma ConnectSpends(s: Shared, dport: U16, id: nat)
    requires Inv(s) && CanSend(s.mux.writer) && !Threatened(s, s.mux.nextPort)
    requires id in s.pumps && PortOf(id) == s.mux.nextPort
    ensures var s' := OnConnect(s, dport);
            Spent(s', id) && !InQueue(s', id)
  {
    ConnectIs(s, dport);
    ConnectGate(s, dport, id);
    assert PumpAt(s, id) && !Threatens(s, id, s.mux.nextPort);
  }

  lemma UnbornTakesNothing(s: Shared, dport: U16)
    requires Known(s)
    ensures !Foreign(OnConnect(s, dport), s.mux.connects) && s.mux.connects !in OnConnect(s, dport).pumps
  {
    var n := s.mux.connects;
    ConnectIs(s, dport);
    assert n in s.pumps ==> PumpAt(s, n);
    assert Of(s.taken, n) == [];
  }

  lemma ConnectSafe(s: Shared, dport: U16)
    requires Inv(s) && !(Threatened(s, s.mux.nextPort) && SendsTwo(s.mux.writer))
    ensures Shut(OnConnect(s, dport), s.mux.connects) || Stuck(OnConnect(s, dport), s.mux.connects)
  {
    var s', n := OnConnect(s, dport), s.mux.connects;
    ConnectIs(s, dport);
    UnbornTakesNothing(s, dport);
    if SendsTwo(s.mux.writer) {
      forall id | id in s'.pumps && id < n && PortOf(id) == PortOf(n) ensures Spent(s', id) && !InQueue(s', id) {
        ConnectSpends(s, dport, id);
      }
    }
  }

  // ---- with one, in some run ---------------------------------------------------------------

  lemma Sooner(s: Shared, e: Event, n: nat)
    requires Can(s, e) && CanBeForeign(Next(s, e), n)
    ensures CanBeForeign(s, n)
  {
    var s1 := Next(s, e);
    var rest :| IsRun(s1, rest) && Foreign(Run(s1, rest), n);
    var events := [e] + rest;
    assert events[0] == e && events[1..] == rest;
    assert IsRun(s, events) && Run(s, events) == Run(s1, rest);
  }

  lemma ForeignNow(s: Shared, n: nat)
    requires Foreign(s, n)
    ensures CanBeForeign(s, n)
  {
    assert IsRun(s, []) && Run(s, []) == s;
  }

  /** Connection `n` is established, and none of its own pump's messages is in the queue. */
  predicate Exposed(s: Shared, n: nat) {
    Holds(s, n, PortOf(n)) && s.mux.table[PortOf(n)].state.Connected? && !InQueue(s, n)
  }

  lemma HeadTaken(s: Shared, n: nat)
    requires Exposed(s, n) && s.queue != [] && s.queue[0].port == PortOf(n)
    ensures Foreign(Next(s, Process), n) && CanBeForeign(s, n)
  {
    var piece := Piece(s.queue[0].sender, s.queue[0].payload);
    assert Next(s, Process).taken[n] == Of(s.taken, n) + [piece];
    assert piece in Next(s, Process).taken[n];
    ForeignNow(Next(s, Process), n);
    Sooner(s, Process, n);
  }

  lemma HeadPasses(s: Shared, n: nat, id: nat)
    requires Exposed(s, n) && s.queue != [] && s.queue[0].port != PortOf(n) && InQueue(s, id)
    requires s.queue[0].sender != id
    ensures Exposed(Next(s, Process), n) && InQueue(Next(s, Process), id)
  {
    NotQueued(s, Next(s, Process), n);
    var i :| 0 <= i < |s.queue| && s.queue[i].sender == id;
    assert Next(s, Process).queue[i - 1].sender == id;
  }

  lemma {:induction false} QueueReaches(s: Shared, n: nat, id: nat)
    requires Inv(s) && Exposed(s, n) && InQueue(s, id) && PortOf(id) == PortOf(n)
    ensures CanBeForeign(s, n)
    decreases |s.queue|
  {
    if s.queue[0].port == PortOf(n) {
      HeadTaken(s, n);
    } else {
      HeadPasses(s, n, id);
      NextKeeps(s, Process);
      QueueReaches(Next(s, Process), n, id);
      Sooner(s, Process, n);
    }
  }

  lemma StepExposed(s: Shared, e: Event, n: nat, id: nat)
    requires Known(s) && Exposed(s, n) && id != n && Can(s, e) && IsPumpEvent(e, id)
    ensures Exposed(Next(s, e), n) && (e.PumpSends? ==> InQueue(Next(s, e), id))
  {
    PumpIs(s, e, id);
    var s' := Next(s, e);
    assert OnlyPermit(s.mux.table[PortOf(n)], s'.mux.table[PortOf(n)]);
    if e.PumpSends? {
      assert s'.queue[|s.queue|].sender == id;
    }
    forall i | 0 <= i < |s'.queue| ensures s'.queue[i].sender != n {
      assert i < |s.queue| ==> s'.queue[i] == s.queue[i];
    }
  }

  lemma {:induction false} PumpReaches(s: Shared, n: nat, id: nat)
    requires Inv(s) && Exposed(s, n) && id in s.pumps && id != n && PortOf(id) == PortOf(n) && !Silent(s, id)
    ensures CanBeForeign(s, n)
    decreases Distance(s.pumps[id].at)
  {
    if s.pumps[id].at.Holding? {
      StepExposed(s, PumpSends(id), n, id);
      NextKeeps(s, PumpSends(id));
      QueueReaches(Next(s, PumpSends(id)), n, id);
      Sooner(s, PumpSends(id), n);
    } else {
      StepsOn(s, id);
      StepExposed(s, Step(s, id), n, id);
      NextKeeps(s, Step(s, id));
      PumpReaches(Next(s, Step(s, id)), n, id);
      Sooner(s, Step(s, id), n);
    }
  }

  function Accept(p: U16): Event {
    Packet(Seg(0, p, 0, 0, SYN + ACK, 0, []), false)
  }

  lemma AcceptedEntry(w: Writer, c: Conn, seg: Seg)
    requires c.state.Connecting? && CanSend(w) && seg.flags == SYN + ACK
    ensures var o := Segment(w, c, seg, false);
            o.fate.Stay? && o.conn.state.Connected? && o.conn.id == c.id
  {
  }

  /** The device accepts the connection at once. */
  lemma Accepted(s: Shared, n: nat, id: nat)
    requires Inv(s) && Holds(s, n, PortOf(n)) && s.mux.table[PortOf(n)].state.Connecting?
    requires CanSend(s.mux.writer) && !InQueue(s, n) && id in s.pumps && id != n
    ensures var s' := Next(s, Accept(PortOf(n)));
            && Exposed(s', n) && s'.queue == s.queue
            && id in s'.pumps && s'.pumps[id] == s.pumps[id] && Gate(s', id) == Gate(s, id)
  {
    var e, c := Accept(PortOf(n)), s.mux.table[PortOf(n)];
    var o := Segment(s.mux.writer, c, e.seg, false);
    KnownLive(s);
    PacketIs(s, e.seg, false);
    AcceptedEntry(s.mux.writer, c, e.seg);
    EntryGate(s, Next(s, e), PortOf(n), o, [], id);
    NotQueued(s, Next(s, e), n);
  }

  lemma Connected(s: Shared, dport: U16)
    requires Known(s) && SendsTwo(s.mux.writer)
    ensures var s', n := OnConnect(s, dport), s.mux.connects;
            && Holds(s', n, PortOf(n)) && s'.mux.table[PortOf(n)].state.Connecting?
            && CanSend(s'.mux.writer) && !InQueue(s', n)
  {
    ConnectIs(s, dport);
    assert s.mux.connects in s.pumps ==> PumpAt(s, s.mux.connects);
  }

  lemma StillThreatens(s: Shared, dport: U16, id: nat)
    requires Known(s) && Threatens(s, id, s.mux.nextPort)
    ensures id < s.mux.connects && PortOf(id) == PortOf(s.mux.connects)
    ensures Threatens(OnConnect(s, dport), id, PortOf(s.mux.connects))
  {
    ConnectIs(s, dport);
    ConnectGate(s, dport, id);
    NotQueued(OnConnect(s, dport), s, id);
    assert PumpAt(s, id);
  }

  lemma ThreatReaches(s: Shared, dport: U16, id: nat)
    requires Inv(s) && SendsTwo(s.mux.writer) && Threatens(s, id, s.mux.nextPort)
    ensures CanBeForeign(OnConnect(s, dport), s.mux.connects)
  {
    var s1, n := OnConnect(s, dport), s.mux.connects;
    Connected(s, dport);
    StillThreatens(s, dport, id);
    NextKeeps(s, Connect(dport));
    Accepted(s1, n, id);
    NextKeeps(s1, Accept(PortOf(n)));
    var s2 := Next(s1, Accept(PortOf(n)));
    if InQueue(s1, id) {
      QueueReaches(s2, n, id);
    } else {
      PumpReaches(s2, n, id);
    }
    Sooner(s1, Accept(PortOf(n)), n);
  }

  /** A Connect exposes the connection it opens to another client's messages, its bytes or its close,
      if and only if an earlier connection on its port has left a message in the queue or a pump that
      has neither ended nor come to rest before the pause flag. Then some run from there makes the
      new connection act on such a message; and otherwise none does, however long. (If the writer
      task will not even take a SYN and an ACK, the connection never comes about.) */
  lemma ForeignIff(s: Shared, dport: U16)
    requires Reachable(s)
    ensures CanBeForeign(Next(s, Connect(dport)), s.mux.connects)
            <==> Threatened(s, s.mux.nextPort) && SendsTwo(s.mux.writer)
  {
    ReachableInv(s);
    var s', n := OnConnect(s, dport), s.mux.connects;
    if Threatened(s, s.mux.nextPort) && SendsTwo(s.mux.writer) {
      var id :| Threatens(s, id, s.mux.nextPort);
      ThreatReaches(s, dport, id);
    } else {
      ConnectSafe(s, dport);
      NextKeeps(s, Connect(dport));
      if CanBeForeign(s', n) {
        var events :| IsRun(s', events) && Foreign(Run(s', events), n);
        RunSafe(s', events, n);
      }
    }
  }

  // ---- whole runs --------------------------------------------------------------------------

  ghost predicate Mixed(s: Shared) {
    exists n :: Foreign(s, n)
  }

  /** No Connect of the run is exposed. */
  predicate Unthreatened(s: Shared, events: seq<Event>)
    requires IsRun(s, events)
    decreases |events|
  {
    events == []
    || ((events[0].Connect? ==> !Threatened(s, s.mux.nextPort)) && Unthreatened(Next(s, events[0]), events[1..]))
  }

  /** No connection opened so far can ever act on a foreign message. */
  ghost predicate Clean(s: Shared) {
    forall n :: 0 <= n < s.mux.connects ==> !CanBeForeign(s, n)
  }

  lemma NextClean(s: Shared, e: Event)
    requires Reachable(s) && Can(s, e) && Clean(s) && (e.Connect? ==> !Threatened(s, s.mux.nextPort))
    ensures Clean(Next(s, e))
  {
    var s' := Next(s, e);
    ReachableInv(s);
    if e.Connect? {
      ForeignIff(s, e.dport);
      ConnectIs(s, e.dport);
    } else {
      SameConnects(s, e);
    }
    forall n | 0 <= n < s'.mux.connects ensures !CanBeForeign(s', n) {
      if n < s.mux.connects && CanBeForeign(s', n) {
        Sooner(s, e, n);
      }
    }
  }

  lemma SameConnects(s: Shared, e: Event)
    requires Known(s) && Can(s, e) && !e.Connect?
    ensures Next(s, e).mux.connects == s.mux.connects
  {
    var k := Classify(s, e);
    match k {
      case Opens =>
      case Entry(p, o, pieces) =>
      case Pumps(x) => PumpIs(s, e, x);
      case Nothing =>
    }
  }

  lemma {:induction false} RunClean(s: Shared, events: seq<Event>)
    requires Reachable(s) && Clean(s) && IsRun(s, events) && Unthreatened(s, events)
    ensures Reachable(Run(s, events)) && Clean(Run(s, events))
    decreases |events|
  {
    if events != [] {
      NextClean(s, events[0]);
      Reaches(s, events[0]);
      RunClean(Next(s, events[0]), events[1..]);
    }
  }

  lemma CleanIsUnmixed(s: Shared)
    requires Reachable(s) && Clean(s)
    ensures !Mixed(s)
  {
    ReachableInv(s);
    if n :| Foreign(s, n) {
      assert n in s.taken;
      ForeignNow(s, n);
    }
  }

  /** If every Connect of a run finds its port without a live pump or a queued message of an earlier
      connection, then in that run no connection ever acts on another's bytes or close. */
  lemma UnthreatenedNeverMixes(w: Writer, events: seq<Event>)
    requires IsRun(Init(w), events) && Unthreatened(Init(w), events)
    ensures !Mixed(Run(Init(w), events))
  {
    var s0 := Init(w);
    assert IsRun(s0, []) && Run(s0, []) == s0;
    RunClean(s0, events);
    CleanIsUnmixed(Run(s0, events));
  }

  /** The first 65535 Connects are never exposed. */
  lemma FirstCycleUnthreatened(s: Shared)
    requires Reachable(s) && s.mux.connects < System.PORTS
    ensures !Threatened(s, s.mux.nextPort)
  {
    ReachableInv(s);
    if id :| Threatens(s, id, s.mux.nextPort) {
      assert PumpAt(s, id);
      MuxTheorems.PortsRepeat(id, s.mux.connects);
    }
  }
}
