/** What a connection leaves behind when it leaves the table, whichever way it goes: by any event,
    from any reachable state. */
module Departures {
  import opened Prelude
  import opened Codec
  import opened ConnSpec
  import opened System
  import opened MuxTheorems
  import Lane
  import LaneProofs
  import SystemProofs

  /** From `l`, in the table, to `l2`, out of it: the pump and its client are where they were; the
      pause flag and the permit too, unless the pump has ended; with the writer channel still open,
      what was accepted and is not on the wire is what is pending, which is what was pending before
      unless the stream has drained; and for a paused pump that is at least the low-water mark. */
  predicate Leaves(l: Lane.Lane, l2: Lane.Lane, alive: bool) {
    && !l2.inTable && l2.pump == l.pump && l2.conn.id == l.conn.id && l2.unread == l.unread && l2.closed == l.closed
    && (l.pump.PumpDone? || (l2.conn.txPause == l.conn.txPause && l2.conn.resumePermit == l.conn.resumePermit))
    && (alive ==> DataOf(l2.sent) + l2.conn.pending == l2.accepted)
    && (alive ==> l2.conn.pending == if l2.why == Some(Drained) then [] else l.conn.pending)
    && (alive && l.conn.txPause && !l.pump.PumpDone? ==> |l2.conn.pending| >= TX_LOW_WATER)
  }

  /** An outcome that removes the connection leaves the pause flag and the permit as they were,
      except after a close that has drained. */
  predicate Abrupt(c: Conn, o: Outcome) {
    o.fate.Gone? && o.fate.why != Drained ==>
      o.conn.txPause == c.txPause && o.conn.resumePermit == c.resumePermit
  }

  lemma DataAbrupt(w: Writer, c: Conn, bytes: Bytes)
    ensures var o := ClientData(w, c, bytes);
            Abrupt(c, o) && (o.fate.Gone? ==> o.fate.why == SendFailed && !CanSend(o.w))
  {
    FlushFails(w, Pushed(c, Some(bytes)));
  }

  lemma CloseAbrupt(w: Writer, c: Conn)
    ensures var o := ClientClose(w, c);
            && Abrupt(c, o)
            && (CanSend(o.w) && o.fate.Gone? ==> o.fate.why == Drained && o.conn.pending == [])
  {
    FlushFails(w, Pushed(c, None));
  }

  lemma AckAbrupt(w: Writer, c: Conn, payload: Bytes, alive: bool)
    ensures var o := AckSegment(w, c, payload, alive);
            && Abrupt(c, o)
            && (o.fate.Gone? && o.fate.why != Drained ==> o.conn.pending == c.pending && DataOf(o.segs) == [])
            && (o.fate == Gone(Drained) ==> o.conn.pending == [] && (payload == [] || (alive && c.rxTx)))
  {
  }

  // ---- one connection ----------------------------------------------------------------------

  lemma CloseLeaves(l: Lane.Lane, w: Writer, data: seq<Option<Bytes>>, drains: seq<nat>)
    requires l.inTable && Lane.Inv(l, [None] + data, drains, CanSend(w)) && ClientClose(w, l.conn).fate.Gone?
    ensures Leaves(l, Lane.OnMessage(l, w, None), CanSend(ClientClose(w, l.conn).w))
  {
    var c, o := l.conn.(clientClosed := true), ClientClose(w, l.conn);
    LaneProofs.CloseReady(l, w, data, drains);
    LaneProofs.CloseKeeps(w, l.conn);
    LaneProofs.StreamKept(l, w, c, o);
    CloseAbrupt(w, l.conn);
    SystemProofs.MessageResolves(w, l.conn, None);
    assert DataOf(Lane.Record(l, o).sent) + [] == DataOf(Lane.Record(l, o).sent);
  }

  lemma DataLeaves(l: Lane.Lane, w: Writer, bytes: Bytes, data: seq<Option<Bytes>>, drains: seq<nat>)
    requires l.inTable && Lane.Inv(l, [Some(bytes)] + data, drains, CanSend(w))
    requires ClientData(w, l.conn, bytes).fate.Gone?
    ensures Leaves(l, Lane.OnMessage(l, w, Some(bytes)), CanSend(ClientData(w, l.conn, bytes).w))
  {
    LaneProofs.MessageReady(l, w, Some(bytes), data, drains);
    DataAbrupt(w, l.conn, bytes);
    SystemProofs.MessageResolves(w, l.conn, Some(bytes));
  }

  /** Gone without a flush: nothing of the stream moves. */
  lemma UnflushedLeaves(l: Lane.Lane, l1: Lane.Lane, o: Outcome, data: seq<Option<Bytes>>, alive: bool)
    requires l.inTable && Lane.Gate(l, data, alive) && Lane.Outbound(l, data, alive) && LaneProofs.Rejudged(l, l1)
    requires o.fate.Gone? && o.fate.why != Drained && (CanSend(o.w) ==> alive)
    requires o.conn.id == l.conn.id && o.conn.pending == l.conn.pending && DataOf(o.segs) == []
    requires o.conn.state.Dead? && o.conn.txPause == l.conn.txPause && o.conn.resumePermit == l.conn.resumePermit
    ensures Leaves(l, Lane.Record(l1, o), CanSend(o.w))
  {
    DataOfAppend(l.sent, o.segs);
    assert DataOf(l.sent) + [] == DataOf(l.sent);
  }

  lemma ShutdownLeaves(l: Lane.Lane, w: Writer, data: seq<Option<Bytes>>, drains: seq<nat>)
    requires l.inTable && Lane.Inv(l, data, drains, CanSend(w))
    ensures Leaves(l, Lane.OnShutdown(l, w), CanSend(ResetAndRemove(w, [], l.conn, ShutDown).w))
  {
    var o := ResetAndRemove(w, [], l.conn, ShutDown);
    UnflushedLeaves(l, l, o, data, CanSend(w));
  }

  /** A deferred close that drains on an acknowledgement: the pump has long finished. */
  lemma DrainedLeaves(l: Lane.Lane, s: Seg, w: Writer, c: Conn, o: Outcome, data: seq<Option<Bytes>>, drains: seq<nat>)
    requires Lane.Linked(l) && Lane.Inv(l, data, drains, CanSend(w))
    requires c == LaneProofs.Heard(l.conn, s) || c == LaneProofs.Counted(LaneProofs.Heard(l.conn, s), s.payload)
    requires LaneProofs.Sends(w, c, o) && LaneProofs.Moves(c, o) && o.fate == Gone(Drained) && o.conn.pending == []
    requires o.conn.id == l.conn.id
    ensures Leaves(l, Lane.Record(Lane.Judge(l, s), o), CanSend(o.w))
  {
    var l1 := Lane.Judge(l, s);
    var l2 := Lane.Record(l1, o);
    LaneProofs.AckReady(l, s, w, c, data, drains);
    LaneProofs.StreamKept(l1, w, c, o);
    assert DataOf(l2.sent) + [] == DataOf(l2.sent);
    assert l.pump.PumpDone?;
  }

  lemma AckLeaves(l: Lane.Lane, s: Seg, w: Writer, data: seq<Option<Bytes>>, drains: seq<nat>)
    requires Lane.Linked(l) && Lane.Inv(l, data, drains, CanSend(w))
    requires AckSegment(w, LaneProofs.Heard(l.conn, s), s.payload, Lane.FwdAlive(l)).fate.Gone?
    ensures var o := AckSegment(w, LaneProofs.Heard(l.conn, s), s.payload, Lane.FwdAlive(l));
            Leaves(l, Lane.Record(Lane.Judge(l, s), o), CanSend(o.w))
  {
    var c := LaneProofs.Heard(l.conn, s);
    var o := AckSegment(w, c, s.payload, Lane.FwdAlive(l));
    AckAbrupt(w, c, s.payload, Lane.FwdAlive(l));
    SystemProofs.AckResolves(w, c, s.payload, Lane.FwdAlive(l));
    if o.fate.why != Drained {
      UnflushedLeaves(l, Lane.Judge(l, s), o, data, CanSend(w));
    } else if s.payload == [] {
      LaneProofs.FlushAndCloseKeeps(w, c);
      DrainedLeaves(l, s, w, c, o, data, drains);
    } else {
      LaneProofs.AckKeeps(w, c, s.payload);
      DrainedLeaves(l, s, w, LaneProofs.Counted(c, s.payload), o, data, drains);
    }
  }

  /** A segment that removes the entry without an answer. */
  lemma RemovedLeaves(l: Lane.Lane, s: Seg, w: Writer, o: Outcome, data: seq<Option<Bytes>>, drains: seq<nat>)
    requires l.inTable && Lane.Inv(l, data, drains, CanSend(w)) && o.fate.Gone?
    requires var c := LaneProofs.Heard(l.conn, s);
             o.fate.why != Drained && o == Outcome(w, [], TearDown(c), o.fate, FailReply(c), [])
    ensures Leaves(l, Lane.Record(Lane.Judge(l, s), o), CanSend(o.w))
  {
    UnflushedLeaves(l, Lane.Judge(l, s), o, data, CanSend(w));
  }

  lemma SegmentLeaves(l: Lane.Lane, s: Seg, w: Writer, data: seq<Option<Bytes>>, drains: seq<nat>) returns (o: Outcome)
    requires l.inTable && Lane.Inv(l, data, drains, CanSend(w))
    requires Segment(w, l.conn, s, Lane.FwdAlive(l)).fate.Gone?
    ensures o == Segment(w, l.conn, s, Lane.FwdAlive(l))
    ensures Leaves(l, Lane.Record(Lane.Judge(l, s), o), CanSend(o.w))
  {
    o := Segment(w, l.conn, s, Lane.FwdAlive(l));
    LaneProofs.SegmentCases(w, l.conn, s, Lane.FwdAlive(l));
    if l.conn.state.Connected? && o == AckSegment(w, LaneProofs.Heard(l.conn, s), s.payload, Lane.FwdAlive(l)) {
      AckLeaves(l, s, w, data, drains);
    } else {
      RemovedLeaves(l, s, w, o, data, drains);
    }
  }

  // ---- the whole mux -----------------------------------------------------------------------

  /** Resetting the entries in `order` does not touch what is already out of the table. */
  lemma {:induction false} ShutDownSpares(s: Sys, order: seq<U16>, p: U16)
    requires p in s.lanes && !InTable(s, p)
    ensures var s' := ShutDownAll(s, order);
            p in s'.lanes && s'.lanes[p] == s.lanes[p] && (CanSend(s'.writer) ==> CanSend(s.writer))
    decreases |order|
  {
    if order != [] {
      var q := order[0];
      ShutDownSpares(if InTable(s, q) then SystemProofs.CloseOne(s, q) else s, order[1..], p);
    }
  }

  lemma CloseOneLeaves(s: Sys, p: U16)
    requires InTable(s, p) && LaneOk(s, p)
    ensures var s' := SystemProofs.CloseOne(s, p);
            p in s'.lanes && Leaves(s.lanes[p], s'.lanes[p], CanSend(s'.writer))
  {
    ShutdownLeaves(s.lanes[p], s.writer, DataFor(s, p), DrainsFor(s, p));
  }

  lemma CloseOneSpares(s: Sys, q: U16, p: U16)
    requires InTable(s, q) && p != q && p in s.lanes
    ensures var s' := SystemProofs.CloseOne(s, q);
            p in s'.lanes && s'.lanes[p] == s.lanes[p] && s'.running == s.running
  {
  }

  lemma {:induction false} ShutDownLeaves(s: Sys, order: seq<U16>, p: U16)
    requires Inv(s) && s.running && InTable(s, p) && p in order
    ensures var s' := ShutDownAll(s, order);
            p in s'.lanes && Leaves(s.lanes[p], s'.lanes[p], CanSend(s'.writer))
    decreases |order|
  {
    var q, rest := order[0], order[1..];
    if q == p {
      assert LaneOk(s, p);
      CloseOneLeaves(s, p);
      ShutDownSpares(SystemProofs.CloseOne(s, p), rest, p);
    } else if InTable(s, q) {
      SystemProofs.CloseOneKeeps(s, q);
      CloseOneSpares(s, q, p);
      ShutDownLeaves(SystemProofs.CloseOne(s, q), rest, p);
    } else {
      ShutDownLeaves(s, rest, p);
    }
  }

  lemma ProcessLeaves(s: Sys, p: U16)
    requires Inv(s) && s.hand.Some? && InTable(s, p) && !InTable(ProcessMessage(s), p)
    ensures Leaves(s.lanes[p], ProcessMessage(s).lanes[p], CanSend(ProcessMessage(s).writer))
  {
    var (_, msg) := s.hand.value;
    var s' := ProcessMessage(s);
    assert LaneOk(s, p);
    SystemProofs.ProcessSplits(s);
    if msg.Some? {
      DataLeaves(s.lanes[p], s.writer, msg.value, DataFor(s', p), DrainsFor(s, p));
    } else {
      CloseLeaves(s.lanes[p], s.writer, DataFor(s', p), DrainsFor(s, p));
    }
  }

  lemma PacketLeaves(s: Sys, seg: Seg, p: U16)
    requires Inv(s) && InTable(s, p) && !InTable(ProcessPacket(s, seg), p)
    ensures Leaves(s.lanes[p], ProcessPacket(s, seg).lanes[p], CanSend(ProcessPacket(s, seg).writer))
  {
    assert LaneOk(s, p) && p == seg.dst;
    var o := SegmentLeaves(s.lanes[p], seg, s.writer, DataFor(s, p), DrainsFor(s, p));
  }

  lemma DrainStays(s: Sys, p: U16)
    requires s.drainQ != [] && InTable(s, p)
    ensures InTable(ProcessDrain(s), p)
  {
  }

  /** Only a message, a packet or the shutdown ever takes an entry out of the table. */
  lemma OthersStay(s: Sys, e: Event, p: U16)
    requires Can(s, e) && InTable(s, p) && !e.Process? && !e.Packet? && !e.Shutdown?
    ensures InTable(Next(s, e), p)
  {
    match e
    case Drain => DrainStays(s, p);
    case At(q, step) => assert Lane.Do(s.lanes[q], step).inTable == s.lanes[q].inTable;
    case _ =>
  }

  lemma EventLeaves(s: Sys, e: Event, p: U16)
    requires Inv(s) && Can(s, e) && InTable(s, p) && !InTable(Next(s, e), p)
    ensures p in Next(s, e).lanes && Leaves(s.lanes[p], Next(s, e).lanes[p], CanSend(Next(s, e).writer))
  {
    if e.Process? {
      ProcessLeaves(s, p);
    } else if e.Packet? {
      PacketLeaves(s, e.seg, p);
    } else if e.Shutdown? {
      ShutDownLeaves(s, e.order, p);
    } else {
      OthersStay(s, e, p);
    }
  }

  lemma AfterLane(s: Sys, e: Event, p: U16)
    requires Inv(s) && Can(s, e) && p in Next(s, e).lanes
    ensures var s' := Next(s, e);
            OwnedBy(s'.wire, s'.lanes[p].conn.id) == s'.lanes[p].sent
  {
    SystemProofs.NextKeeps(s, e);
    assert LaneOk(Next(s, e), p);
  }

  lemma Departed(s: Sys, e: Event, p: U16)
    requires Reachable(s) && Can(s, e) && InTable(s, p) && !InTable(Next(s, e), p)
    ensures var s' := Next(s, e);
            && p in s'.lanes && Leaves(s.lanes[p], s'.lanes[p], CanSend(s'.writer))
            && OwnedBy(s'.wire, s'.lanes[p].conn.id) == s'.lanes[p].sent
  {
    ReachableInv(s);
    EventLeaves(s, e, p);
    AfterLane(s, e, p);
  }


  /** Whichever event takes a connection out of the table, if the writer still receives then what
      was accepted from the client and is not on the wire is exactly what is pending; and that is
      what was pending before the event, unless it is a close that has drained. So nothing accepted
      is lost if and only if the stream has drained or nothing was pending. */
  lemma DepartureLosesPending(s: Sys, e: Event, p: U16)
    requires Reachable(s) && Can(s, e) && InTable(s, p) && !InTable(Next(s, e), p) && CanSend(Next(s, e).writer)
    ensures p in Next(s, e).lanes
    ensures var s' := Next(s, e);
            var l, l' := s.lanes[p], s'.lanes[p];
            var sent := DataOf(OwnedBy(s'.wire, l'.conn.id));
            && l'.conn.id == l.conn.id
            && sent + l'.conn.pending == l'.accepted
            && l'.conn.pending == (if l'.why == Some(Drained) then [] else l.conn.pending)
            && (sent == l'.accepted <==> l'.why == Some(Drained) || l.conn.pending == [])
  {
    Departed(s, e, p);
  }
}
