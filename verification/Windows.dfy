/** The receive window a connection shows: never more than there is, all of it whenever it sends, and
    less than there is only because of drain reports that call for no frame. */
module Windows {
  import opened Prelude
  import opened Codec
  import opened ConnSpec
  import opened System
  import opened MuxTheorems
  import Effects
  import Frames
  import FromDevice
  import Lane
  import LaneProofs
  import Occurrences
  import SystemProofs

  function LastWindow(l: Lane.Lane): nat {
    if l.sent == [] then 0 else l.sent[|l.sent| - 1].window
  }

  /** The last frame shows no more room than there is. */
  predicate Modest(l: Lane.Lane, alive: bool) {
    alive && l.inTable ==> l.sent != [] && 256 * LastWindow(l) <= Frames.Free(l.conn.rxBuffered)
  }

  /** The last frame shows all the room there is, to the 256 bytes it can show. */
  predicate Current(l: Lane.Lane) {
    l.sent != [] && Frames.Shows(LastWindow(l), Frames.Free(l.conn.rxBuffered))
  }

  lemma SentIsCurrent(l: Lane.Lane, l2: Lane.Lane)
    requires Frames.Tells(l, l2) && |l.sent| < |l2.sent|
    ensures Current(l2)
  {
    assert Frames.TrueFrame(l2, |l2.sent| - 1);
  }

  /** An event of the lane that sends nothing takes no room. */
  predicate Frees(l: Lane.Lane, l2: Lane.Lane, alive: bool) {
    alive && l2.inTable && l2.sent == l.sent ==> l.inTable && l2.conn.rxBuffered <= l.conn.rxBuffered
  }

  lemma ModestKept(l: Lane.Lane, l2: Lane.Lane, before: bool, alive: bool)
    requires Frames.Tells(l, l2) && Modest(l, before) && Frees(l, l2, alive) && (alive ==> before)
    ensures Modest(l2, alive)
  {
    if alive && l2.inTable {
      if l2.sent == l.sent {
        assert LastWindow(l2) == LastWindow(l);
      } else {
        assert |l.sent| < |l2.sent|;
        SentIsCurrent(l, l2);
      }
    }
  }

  lemma PacketFrees(s: Sys, seg: Seg, p: U16)
    requires Reachable(s) && Can(s, Packet(seg)) && p in s.lanes
    ensures var s' := Next(s, Packet(seg));
            p in s'.lanes && Frees(s.lanes[p], s'.lanes[p], CanSend(s'.writer))
  {
    if seg.dst == p && InTable(s, p) {
      SegmentFrees(s, seg);
    }
  }

  lemma SegmentFrees(s: Sys, seg: Seg)
    requires Reachable(s) && InTable(s, seg.dst)
    ensures var s', p := ProcessPacket(s, seg), seg.dst;
            p in s'.lanes && Frees(s.lanes[p], s'.lanes[p], CanSend(s'.writer))
  {
    var l := s.lanes[seg.dst];
    var o := Segment(s.writer, l.conn, seg, Lane.FwdAlive(l));
    ReachableLane(s, seg.dst);
    OutcomeFrees(s.writer, l.conn, seg, Lane.FwdAlive(l));
    assert o.segs != [] ==> l.sent + o.segs != l.sent by {
      assert |l.sent + o.segs| == |l.sent| + |o.segs|;
    }
  }

  lemma OutcomeFrees(w: Writer, c: Conn, seg: Seg, alive: bool)
    requires !c.state.Dead?
    ensures var o := Segment(w, c, seg, alive);
            CanSend(o.w) && o.fate.Stay? && o.segs == [] ==> o.conn.rxBuffered == c.rxBuffered
  {
    LaneProofs.SegmentCases(w, c, seg, alive);
    if c.state.Connected? {
      Frames.AckCounts(w, LaneProofs.Heard(c, seg), seg.payload, alive);
      DeliveredSpeaks(w, LaneProofs.Heard(c, seg), seg.payload, alive);
    }
  }

  lemma DeliveredSpeaks(w: Writer, c: Conn, payload: Bytes, alive: bool)
    requires c.state.Connected?
    ensures var o := AckSegment(w, c, payload, alive);
            CanSend(o.w) && o.deliver != [] ==> o.segs != []
  {
    if payload != [] && alive && c.rxTx {
      LaneProofs.AckKeeps(w, c, payload);
    }
  }

  lemma MessageFrees(l: Lane.Lane, w: Writer, msg: Option<Bytes>, alive: bool)
    requires l.inTable
    ensures Frees(l, Lane.OnMessage(l, w, msg), alive)
  {
    Frames.MessageAck(w, l.conn, msg);
  }

  lemma DrainFrees(l: Lane.Lane, w: Writer, n: U32, alive: bool)
    requires l.inTable
    ensures Frees(l, Lane.OnDrain(l, w, n), alive)
  {
  }

  lemma EventFrees(s: Sys, e: Event, p: U16)
    requires Reachable(s) && Can(s, e) && p in s.lanes && !(e.Connect? && s.nextPort == p)
    ensures p in Next(s, e).lanes && Frees(s.lanes[p], Next(s, e).lanes[p], CanSend(Next(s, e).writer))
  {
    match e
    case Packet(seg) => PacketFrees(s, seg, p);
    case Process =>
      if InTable(s, s.hand.value.0) {
        MessageFrees(s.lanes[s.hand.value.0], s.writer, s.hand.value.1, CanSend(Next(s, e).writer));
      }
    case Shutdown(order) => ShutdownFrees(s, order, p);
    case Drain =>
      if InTable(s, s.drainQ[0].0) {
        DrainFrees(s.lanes[s.drainQ[0].0], s.writer, s.drainQ[0].1, CanSend(Next(s, e).writer));
      }
    case At(q, step) => Frames.LocalTells(s.lanes[q], step);
    case _ =>
  }

  lemma ShutdownFrees(s: Sys, order: seq<U16>, p: U16)
    requires Reachable(s) && Can(s, Shutdown(order)) && p in s.lanes
    ensures var s' := Next(s, Shutdown(order));
            p in s'.lanes && Frees(s.lanes[p], s'.lanes[p], CanSend(s'.writer))
  {
    ReachableInv(s);
    Frames.EventTells(s, Shutdown(order), p);
    StopsEmpty(s, order);
    assert !InTable(Next(s, Shutdown(order)), p);
  }

  lemma StopsEmpty(s: Sys, order: seq<U16>)
    requires Inv(s) && Can(s, Shutdown(order))
    ensures forall p :: !InTable(Next(s, Shutdown(order)), p)
  {
    SystemProofs.NextKeeps(s, Shutdown(order));
    Effects.OrderTabled(s, order);
    Effects.ShutDownEffects(s, order);
  }

  // ---- every state -------------------------------------------------------------------------

  ghost predicate AllModest(s: Sys) {
    forall p :: p in s.lanes ==> Modest(s.lanes[p], CanSend(s.writer))
  }

  /** Sending only uses up the writer. */
  lemma WriterOnlyCloses(s: Sys, e: Event)
    requires Reachable(s) && Can(s, e) && CanSend(Next(s, e).writer)
    ensures CanSend(s.writer)
  {
    match e
    case Process =>
      if InTable(s, s.hand.value.0) {
        SystemProofs.MessageResolves(s.writer, s.lanes[s.hand.value.0].conn, s.hand.value.1);
      }
    case Packet(seg) =>
      if InTable(s, seg.dst) {
        var l := s.lanes[seg.dst];
        SystemProofs.SegmentResolves(s.writer, l.conn, seg, Lane.FwdAlive(l));
      }
    case Shutdown(order) =>
      Effects.OrderTabled(s, order);
      Effects.ShutDownEffects(s, order);
    case _ =>
  }

  lemma OpenModest(s: Sys, dport: U16)
    requires Reachable(s) && Can(s, Connect(dport)) && AllModest(s)
    ensures AllModest(OpenNext(s, dport))
  {
    var o := Opened(s.writer, s.connects, s.nextPort, dport);
    forall p | p in OpenNext(s, dport).lanes ensures Modest(OpenNext(s, dport).lanes[p], CanSend(OpenNext(s, dport).writer)) {
      if o.fate.Stay? && p == s.nextPort {
        assert OpenNext(s, dport).lanes[p] == Lane.Born(o);
      } else {
        assert Modest(s.lanes[p], CanSend(s.writer));
      }
    }
  }

  lemma NextModest(s: Sys, e: Event)
    requires Reachable(s) && Can(s, e) && AllModest(s)
    ensures AllModest(Next(s, e))
  {
    if e.Connect? {
      OpenModest(s, e.dport);
    } else {
      var s' := Next(s, e);
      forall p | p in s'.lanes ensures Modest(s'.lanes[p], CanSend(s'.writer)) {
        NoNewLane(s, e, p);
        EventFrees(s, e, p);
        Frames.EventLane(s, e, p);
        if CanSend(s'.writer) {
          WriterOnlyCloses(s, e);
        }
        ModestKept(s.lanes[p], s'.lanes[p], CanSend(s.writer), CanSend(s'.writer));
      }
    }
  }

  lemma NoNewLane(s: Sys, e: Event, p: U16)
    requires Can(s, e) && !e.Connect? && p in Next(s, e).lanes
    ensures p in s.lanes
  {
    if p !in s.lanes {
      FromDevice.NoNewLane(s, e, p);
    }
  }

  lemma {:induction false} RunModest(s: Sys, events: seq<Event>)
    requires Reachable(s) && AllModest(s) && IsRun(s, events)
    ensures AllModest(Run(s, events))
    decreases |events|
  {
    if events != [] {
      NextModest(s, events[0]);
      Occurrences.Reaches(s, events[0]);
      RunModest(Next(s, events[0]), events[1..]);
    }
  }

  lemma ReachableModest(s: Sys)
    requires Reachable(s)
    ensures AllModest(s)
  {
    var w, events :| IsRun(Init(w), events) && Run(Init(w), events) == s;
    assert IsRun(Init(w), []) && Run(Init(w), []) == Init(w);
    RunModest(Init(w), events);
  }

  /** In every state the last frame of every entry, its SYN included, shows no more room than there
      is: a device that keeps to it never sends what cannot be taken. */
  lemma WindowNeverOverstated(s: Sys, p: U16)
    requires Reachable(s) && InTable(s, p) && CanSend(s.writer)
    ensures var l := s.lanes[p];
            var frames := OwnedBy(s.wire, l.conn.id);
            frames != [] && 256 * frames[|frames| - 1].window <= Frames.Free(l.conn.rxBuffered)
  {
    ReachableModest(s);
    assert Modest(s.lanes[p], CanSend(s.writer));
    ReachableInward(s, p);
  }

  // ---- when it is understated --------------------------------------------------------------

  lemma SameFree(s: Sys, e: Event, p: U16)
    requires Reachable(s) && Can(s, e) && InTable(s, p) && InTable(Next(s, e), p) && CanSend(Next(s, e).writer)
    requires !(e.Drain? && s.drainQ[0].0 == p) && Next(s, e).lanes[p].sent == s.lanes[p].sent
    requires !(e.Connect? && s.nextPort == p)
    ensures Next(s, e).lanes[p].conn.rxBuffered == s.lanes[p].conn.rxBuffered
  {
    match e
    case Packet(seg) =>
      if seg.dst == p {
        var l := s.lanes[p];
        ReachableLane(s, p);
        OutcomeFrees(s.writer, l.conn, seg, Lane.FwdAlive(l));
        SameSent(l, Segment(s.writer, l.conn, seg, Lane.FwdAlive(l)));
      }
    case Process => if s.hand.value.0 == p { Frames.MessageAck(s.writer, s.lanes[p].conn, s.hand.value.1); }
    case Shutdown(order) =>
      ReachableInv(s);
      StopsEmpty(s, order);
    case At(q, step) => Frames.LocalTells(s.lanes[q], step);
    case _ =>
  }

  lemma SameSent(l: Lane.Lane, o: Outcome)
    ensures l.sent + o.segs == l.sent ==> o.segs == []
  {
    assert |l.sent + o.segs| == |l.sent| + |o.segs|;
  }

  /** Once the last frame shows all the room there is, it goes on doing so through every event that
      leaves the connection in the table, but for one kind: a drain report that gives back as much as
      another 256 bytes without there being, for the first time, room for a full payload. */
  lemma UnderstatedIff(s: Sys, e: Event, p: U16)
    requires Reachable(s) && Can(s, e) && InTable(s, p) && InTable(Next(s, e), p) && CanSend(Next(s, e).writer)
    requires s.lanes[p].conn.state.Connected? && Current(s.lanes[p]) && !(e.Connect? && s.nextPort == p)
    ensures var l := s.lanes[p];
            var before := Frames.Free(l.conn.rxBuffered);
            Current(Next(s, e).lanes[p]) <==>
              !(e.Drain? && s.drainQ[0].0 == p
                && var after := Frames.Free(SatSub(l.conn.rxBuffered, s.drainQ[0].1));
                   256 * LastWindow(l) + 256 <= after && !(before < 49116 <= after))
  {
    var l, l' := s.lanes[p], Next(s, e).lanes[p];
    Frames.EventLane(s, e, p);
    WriterOnlyCloses(s, e);
    if e.Drain? && s.drainQ[0].0 == p {
      DrainShows(l, s.writer, s.drainQ[0].1);
    } else if l'.sent == l.sent {
      SameFree(s, e, p);
    } else {
      SentIsCurrent(l, l');
    }
  }

  lemma DrainShows(l: Lane.Lane, w: Writer, n: U32)
    requires Lane.Linked(l) && CanSend(w) && Current(l)
    ensures var before, after := Frames.Free(l.conn.rxBuffered), Frames.Free(SatSub(l.conn.rxBuffered, n));
            Current(Lane.OnDrain(l, w, n)) <==> after < 256 * LastWindow(l) + 256 || before < 49116 <= after
  {
    var o := DrainReport(w, l.conn, n);
    if o.segs == [] {
      assert l.sent + o.segs == l.sent;
    } else {
      Frames.DrainTells(l, w, n);
      SentIsCurrent(l, Lane.OnDrain(l, w, n));
    }
  }

  // ---- it does happen ----------------------------------------------------------------------

  function Data(n: nat): Bytes {
    seq(n, _ => 0)
  }

  /** Connection 1, established, with `n` bytes buffered, `queue` of them still to be forwarded. */
  predicate Holding(l: Lane.Lane, n: nat, queue: seq<Bytes>, fwd: Lane.Forwarder) {
    && l.inTable && l.conn.state.Connected? && l.conn.rxTx && l.conn.pending == [] && !l.conn.clientClosed
    && l.conn.rxBuffered == n && l.rxQ == queue && l.fwd == fwd
  }

  predicate Calm(s: Sys, n: nat, queue: seq<Bytes>, fwd: Lane.Forwarder, drains: seq<(U16, U32)>) {
    && s.running && s.writer == Open && s.hand.None? && s.drainQ == drains
    && 1 in s.lanes && Holding(s.lanes[1], n, queue, fwd)
  }

  lemma Established() returns (s: Sys)
    ensures Reachable(s) && Calm(s, 0, [], Lane.Idle, [])
  {
    var s1 := Occurrences.Asks();
    var seg := Seg(0, 1, 0, 0, 0x12, 0, []);
    Occurrences.Reaches(s1, Packet(seg));
    s := Next(s1, Packet(seg));
    assert s.lanes[1] == Lane.OnSegment(s1.lanes[1], Open, seg);
  }

  lemma TakesPayload(l: Lane.Lane, seg: Seg)
    requires Holding(l, 0, [], Lane.Idle) && seg.flags == 0x10 && |seg.payload| == 300
    ensures var l' := Lane.OnSegment(l, Open, seg);
            && Holding(l', 300, [seg.payload], Lane.Idle) && l'.sent != [] && LastWindow(l') == 510
    ensures Segment(Open, l.conn, seg, true).w == Open
  {
    var o := Segment(Open, l.conn, seg, true);
    assert |o.segs| == 1 && o.segs[0].window == 510;
    assert (l.sent + o.segs)[|l.sent|] == o.segs[0];
  }

  lemma Arrives(s: Sys) returns (s': Sys)
    requires Reachable(s) && Calm(s, 0, [], Lane.Idle, [])
    ensures Reachable(s') && Calm(s', 300, [Data(300)], Lane.Idle, [])
    ensures s'.lanes[1].sent != [] && LastWindow(s'.lanes[1]) == 510
  {
    var seg := Seg(0, 1, 0, 0, 0x10, 0, Data(300));
    TakesPayload(s.lanes[1], seg);
    Occurrences.Reaches(s, Packet(seg));
    s' := Next(s, Packet(seg));
    assert s'.lanes[1] == Lane.OnSegment(s.lanes[1], Open, seg);
  }

  lemma Picks(s: Sys) returns (s': Sys)
    requires Reachable(s) && Calm(s, 300, [Data(300)], Lane.Idle, [])
    ensures Reachable(s') && Calm(s', 300, [], Lane.Writing(Data(300)), []) && s'.lanes[1].sent == s.lanes[1].sent
  {
    Occurrences.Reaches(s, At(1, Lane.ForwarderTakes));
    s' := Next(s, At(1, Lane.ForwarderTakes));
  }

  lemma Reads(s: Sys) returns (s': Sys)
    requires Reachable(s) && Calm(s, 300, [], Lane.Writing(Data(300)), [])
    ensures Reachable(s') && Calm(s', 300, [], Lane.Idle, [(1, 300)]) && s'.lanes[1].sent == s.lanes[1].sent
  {
    Occurrences.Reaches(s, ForwarderWrites(1));
    s' := Next(s, ForwarderWrites(1));
  }

  ghost predicate Understates(s: Sys, p: U16) {
    && Reachable(s) && CanSend(s.writer) && InTable(s, p) && s.lanes[p].conn.state.Connected?
    && s.lanes[p].sent != [] && 256 * LastWindow(s.lanes[p]) + 256 <= Frames.Free(s.lanes[p].conn.rxBuffered)
  }

  lemma DrainsSilently(l: Lane.Lane)
    requires Holding(l, 300, [], Lane.Idle)
    ensures DrainReport(Open, l.conn, 300).segs == [] && Lane.OnDrain(l, Open, 300).sent == l.sent
    ensures Holding(Lane.OnDrain(l, Open, 300), 0, [], Lane.Idle)
  {
  }

  /** Of 131072 bytes, 300 are taken and acknowledged with a window of 510 units; the client reads
      them, and the last frame goes on showing 130560 bytes while all 131072 are free. */
  lemma UnderstatedHappens()
    ensures exists s :: Understates(s, 1)
  {
    var s0 := Established();
    var s1 := Arrives(s0);
    var s2 := Picks(s1);
    s2 := Reads(s2);
    DrainsSilently(s2.lanes[1]);
    Occurrences.Reaches(s2, Drain);
    var s := Next(s2, Drain);
    assert s.lanes[1] == Lane.OnDrain(s2.lanes[1], Open, 300);
    assert Understates(s, 1);
  }
}
