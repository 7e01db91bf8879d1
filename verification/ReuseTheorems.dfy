/** What holds in every state the mux can reach when its Connects never wait for a port. */
module ReuseTheorems {
  import opened Prelude
  import opened Codec
  import opened ConnSpec
  import opened PortReuse
  import opened ReuseProofs
  import opened StalePumps
  import Lane
  import LaneProofs
  import MuxTheorems
  import System

  /** An entry only ever acts on messages of its own pump or of one whose connection came a whole
      number of 65535-port cycles earlier; so on none but its own while at most 65535 Connects have
      been processed. */
  lemma BytesFromCyclesAgo(s: Shared, id: nat, x: Piece)
    requires Reachable(s) && x in Of(s.taken, id)
    ensures x.sender <= id && (id - x.sender) % System.PORTS == 0
    ensures s.mux.connects <= System.PORTS ==> x.sender == id
  {
    ReachableInv(s);
    assert Origins(s, id);
    if x.sender < id {
      MuxTheorems.PortsRepeat(x.sender, id);
    }
  }

  /** The connection `id` as it is, or as it last was. */
  predicate IsConn(s: Shared, id: nat, c: Conn) {
    (Holds(s, id, PortOf(id)) && c == s.mux.table[PortOf(id)]) || (id in s.left && c == s.left[id].conn)
  }

  /** For every connection there ever was: whatever it has taken, its own client's bytes and foreign
      ones alike and in the order taken, is on the wire as its payload or pending, or was pending when
      its entry went. It is closed exactly if it has taken a close, and only then can it be drained. */
  lemma TakenGoesOut(s: Shared, id: nat, c: Conn)
    requires Reachable(s) && IsConn(s, id, c)
    ensures CanSend(s.mux.writer) ==> DataOf(Of(s.sent, id)) + c.pending == BytesOf(Of(s.taken, id))
    ensures c.clientClosed <==> HasClose(Of(s.taken, id))
    ensures id in s.left && s.left[id].why == Some(Drained) ==> HasClose(Of(s.taken, id))
  {
    ReachableInv(s);
    if id in s.left {
      assert FormerFlows(s, id);
      assert LeftAt(s, id);
    } else {
      assert Flows(s, s.mux.table[PortOf(id)]);
    }
  }

  /** A close ends the connection it reaches, whoever's client it came from: with the writer channel
      open, at once if and only if all the connection has taken is then on the wire. */
  lemma CloseEnds(s: Shared)
    requires Reachable(s) && s.queue != [] && s.queue[0].payload.None? && Takes(s, s.queue[0])
    requires CanSend(Next(s, Process).mux.writer)
    ensures var s', id := Next(s, Process), s.mux.table[s.queue[0].port].id;
            && (Holds(s', id, PortOf(id)) || (id in s'.left && s'.left[id].why == Some(Drained)))
            && (id in s'.left <==> DataOf(Of(s'.sent, id)) == BytesOf(Of(s'.taken, id)))
  {
    ReachableInv(s);
    KnownLive(s);
    ProcessIs(s);
    NextKeeps(s, Process);
    var p := s.queue[0].port;
    var c, s' := s.mux.table[p], Next(s, Process);
    assert EntryAt(s, p);
    CloseOutcome(s.mux.writer, c);
    OtherIds(s, p);
    if c.id in s'.left {
      assert FormerFlows(s', c.id);
    } else {
      assert Flows(s', s'.mux.table[p]);
    }
  }

  lemma CloseOutcome(w: Writer, c: Conn)
    requires c.state.Connected? && CanSend(ClientClose(w, c).w)
    ensures var o := ClientClose(w, c);
            o.fate == (if o.conn.pending == [] then Gone(Drained) else Stay)
  {
    LaneProofs.CloseKeeps(w, c);
    FlushFails(w, c.(clientClosed := true));
  }

  // ---- overwriting -------------------------------------------------------------------------

  lemma OverwrittenGone(s: Shared, dport: U16)
    requires Inv(s) && CanSend(s.mux.writer) && s.mux.nextPort in s.mux.table
    ensures var c, s' := s.mux.table[s.mux.nextPort], Next(s, Connect(dport));
            && Inv(s') && c.id in s'.left && s'.left[c.id] == Former(c, None)
            && (c.id in s.pumps <==> c.state.Connected?)
  {
    var p := s.mux.nextPort;
    ConnectIs(s, dport);
    NextKeeps(s, Connect(dport));
    assert EntryAt(s, p);
    OtherIds(s, p);
  }

  lemma OverwrittenPump(s: Shared, dport: U16)
    requires Inv(s) && s.mux.nextPort in s.mux.table && s.mux.table[s.mux.nextPort].id in s.pumps
    ensures var c, s' := s.mux.table[s.mux.nextPort], Next(s, Connect(dport));
            && c.id in s'.pumps && s'.pumps[c.id] == s.pumps[c.id] && Gate(s', c.id) == c
  {
    var p := s.mux.nextPort;
    assert EntryAt(s, p) && PumpAt(s, s.mux.table[p].id);
    ConnectIs(s, dport);
    ConnectGate(s, dport, s.mux.table[p].id);
  }

  /** A Connect that overwrites an entry ends its stream where it stands: of what the entry has taken,
      exactly the pending bytes never go out, in any run. Its pump, if it was started, can send again
      if and only if it has not ended and does not stand before a raised pause flag, at the test or
      asleep. In the latter case it is asleep for good, and at least TX_LOW_WATER bytes are lost. */
  lemma OverwriteLosesPending(s: Shared, dport: U16, events: seq<Event>)
    requires Reachable(s) && CanSend(s.mux.writer) && s.mux.nextPort in s.mux.table
    requires IsRun(Next(s, Connect(dport)), events)
    ensures var c, s' := s.mux.table[s.mux.nextPort], Next(s, Connect(dport));
            var sent := DataOf(Of(Run(s', events).sent, c.id));
            && sent + c.pending == BytesOf(Of(s.taken, c.id))
            && (sent == BytesOf(Of(s.taken, c.id)) <==> c.pending == [])
    ensures var c := s.mux.table[s.mux.nextPort];
            c.id in s.pumps <==> c.state.Connected?
    ensures var c, s' := s.mux.table[s.mux.nextPort], Next(s, Connect(dport));
            c.state.Connected? ==>
              var at := s.pumps[c.id].at;
              && (WillSend(s', c.id) <==> !at.PumpDone? && !(c.txPause && (at.Checking? || at.Waiting?)))
              && (!WillSend(s', c.id) && !at.PumpDone? ==> |c.pending| >= TX_LOW_WATER)
  {
    ReachableInv(s);
    var p, s' := s.mux.nextPort, Next(s, Connect(dport));
    var c := s.mux.table[p];
    OverwrittenGone(s, dport);
    OverwrittenBytes(s, dport, events);
    if c.state.Connected? {
      OverwrittenPump(s, dport);
      OrphanSendsIff(s', c.id);
    }
  }

  lemma OverwrittenBytes(s: Shared, dport: U16, events: seq<Event>)
    requires Inv(s) && CanSend(s.mux.writer) && s.mux.nextPort in s.mux.table
    requires IsRun(Next(s, Connect(dport)), events)
    ensures var c, s' := s.mux.table[s.mux.nextPort], Next(s, Connect(dport));
            && DataOf(Of(Run(s', events).sent, c.id)) + c.pending == BytesOf(Of(s.taken, c.id))
            && (c.txPause ==> |c.pending| >= TX_LOW_WATER)
  {
    var c := s.mux.table[s.mux.nextPort];
    OverwrittenGone(s, dport);
    ConnectIs(s, dport);
    GoneForGood(Next(s, Connect(dport)), events, c.id);
    assert Flows(s, c) && Full(c, CanSend(s.mux.writer));
  }

  // ---- replies -----------------------------------------------------------------------------

  function WaitingIds(s: Shared): set<nat> {
    set p | p in s.mux.table && s.mux.table[p].reply :: s.mux.table[p].id
  }

  function LostIds(s: Shared): set<nat> {
    set id | id in s.left && s.left[id].conn.reply
  }

  lemma WaitingAre(s: Shared)
    requires Known(s)
    ensures forall id: nat :: id in WaitingIds(s) <==> Waits(s, id)
  {
    forall id: nat ensures id in WaitingIds(s) <==> Waits(s, id) {
      if id in WaitingIds(s) {
        var p :| p in s.mux.table && s.mux.table[p].reply && s.mux.table[p].id == id;
        assert EntryAt(s, p);
      }
    }
  }

  /** Conservation of Connects, over any run: each one processed has exactly one reply, or waits for it
      in the table, or was overwritten there while it waited; the three never overlap, and together
      they are all. */
  lemma ConnectsAccounted(s: Shared)
    requires Reachable(s)
    ensures s.mux.connects == |s.mux.replies| + |WaitingIds(s)| + |LostIds(s)|
    ensures forall i, j :: 0 <= i < j < |s.mux.replies| ==> s.mux.replies[i].id != s.mux.replies[j].id
    ensures forall id :: 0 <= id < s.mux.connects ==> Replied(s, id) || id in WaitingIds(s) || id in LostIds(s)
    ensures forall id :: id in WaitingIds(s) || id in LostIds(s) ==> id < s.mux.connects && !Replied(s, id)
    ensures WaitingIds(s) !! LostIds(s)
  {
    ReachableInv(s);
    WaitingAre(s);
    ThreeParts(s);
    var answered := MuxTheorems.RepliedIds(s.mux.replies);
    MuxTheorems.RepliedIdsAre(s.mux.replies);
    forall id: nat ensures id in answered <==> Replied(s, id) {
    }
    MuxTheorems.DisjointUnion(answered, WaitingIds(s) + LostIds(s), s.mux.connects);
  }

  lemma ThreeParts(s: Shared)
    requires Known(s) && Books(s) && forall id: nat :: id in WaitingIds(s) <==> Waits(s, id)
    ensures WaitingIds(s) !! LostIds(s)
    ensures forall id: nat :: id in WaitingIds(s) + LostIds(s) || Replied(s, id) <==> id < s.mux.connects
    ensures forall id: nat :: id in WaitingIds(s) + LostIds(s) ==> !Replied(s, id)
  {
    forall id: nat | id in WaitingIds(s) ensures id !in LostIds(s) && id < s.mux.connects {
      assert EntryAt(s, PortOf(id));
      assert id in s.left ==> LeftAt(s, id);
    }
    forall id: nat | id in LostIds(s) ensures id < s.mux.connects && !Replied(s, id) {
      assert LeftAt(s, id) && Lost(s, id);
    }
  }

  lemma LostByConnect(s: Shared, dport: U16)
    requires Known(s)
    ensures var p := s.mux.nextPort;
            LostIds(OnConnect(s, dport)) == LostIds(s) +
              if CanSend(s.mux.writer) && p in s.mux.table && s.mux.table[p].reply then {s.mux.table[p].id} else {}
  {
    forall id: nat
      ensures Lost(OnConnect(s, dport), id) <==>
              Lost(s, id) || (CanSend(s.mux.writer) && Holds(s, id, s.mux.nextPort) && Waits(s, id))
    {
      ConnectWaits(s, dport, id);
    }
    assert s.mux.nextPort in s.mux.table ==> EntryAt(s, s.mux.nextPort);
  }

  lemma LostByEntry(s: Shared, s': Shared, p: U16, o: Outcome, pieces: seq<Piece>)
    requires Known(s) && EntryEvent(s, s', p, o, pieces)
    ensures LostIds(s') == LostIds(s)
  {
    forall id: nat ensures Lost(s', id) <==> Lost(s, id) {
      EntryWaits(s, s', p, o, pieces, id);
    }
  }

  lemma LostByPump(s: Shared, e: Event, id: nat)
    requires Can(s, e) && IsPumpEvent(e, id)
    ensures LostIds(Next(s, e)) == LostIds(s)
  {
    PumpIs(s, e, id);
    assert forall x :: x in s.left ==> OnlyPermit(s.left[x].conn, Next(s, e).left[x].conn);
  }

  lemma LostByOther(s: Shared, e: Event)
    requires Known(s) && Can(s, e) && !e.Connect?
    ensures LostIds(Next(s, e)) == LostIds(s)
  {
    var k := Classify(s, e);
    match k {
      case Opens =>
      case Entry(p, o, pieces) => LostByEntry(s, Next(s, e), p, o, pieces);
      case Pumps(id) => LostByPump(s, e, id);
      case Nothing => assert Next(s, e).left == s.left;
    }
  }

  /** A reply is lost exactly by overwriting: a Connect loses that of the entry on its port, if its
      SYN can be sent and the entry still waits; no other event loses any. */
  lemma RepliesLostBy(s: Shared, e: Event)
    requires Reachable(s) && Can(s, e)
    ensures var p := s.mux.nextPort;
            LostIds(Next(s, e)) == LostIds(s) +
              if e.Connect? && CanSend(s.mux.writer) && p in s.mux.table && s.mux.table[p].reply
              then {s.mux.table[p].id} else {}
  {
    ReachableInv(s);
    if e.Connect? {
      LostByConnect(s, e.dport);
    } else {
      LostByOther(s, e);
    }
  }
}
