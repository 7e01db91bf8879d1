/** What each event does, exactly, as the device and the clients see it: stated in the bits and numbers
    of the event and the connection, not through the handlers. */
module Effects {
  import opened Prelude
  import opened Codec
  import opened ConnSpec
  import opened System
  import opened MuxTheorems
  import Frames
  import Lane
  import LaneProofs
  import SystemProofs

  // ---- a flush -----------------------------------------------------------------------------

  /** How many of `pending` bytes a window of `win` bytes beyond `ack` lets out, from `seq_` on. */
  function Released(pending: nat, seq_: U32, ack: U32, win: nat): nat {
    var flying := (seq_ - ack) % 0x1_0000_0000;
    if win <= flying then 0 else if pending <= win - flying then pending else win - flying
  }

  /** From `c`, with `whole` pending, to `c'`: `n` bytes have gone out as `data`; a raised pause flag
      stays up as long as 262144 bytes remain, and gives a permit when it falls. */
  predicate Lets(c: Conn, whole: Bytes, n: nat, c': Conn, data: Bytes) {
    && n <= |whole| && data == whole[..n] && c'.pending == whole[n..]
    && (c'.resumePermit <==> c.resumePermit || (c.txPause && |c'.pending| < 262144))
  }

  lemma PrefixIs(data: Bytes, whole: Bytes)
    requires data <= whole
    ensures data == whole[..|data|]
  {
  }

  lemma FlushLets(w: Writer, c: Conn)
    requires CanSend(Flush(w, c).w)
    ensures var r := Flush(w, c);
            && r.ok && Lets(c, c.pending, Released(|c.pending|, c.txSeq, c.rxAck, c.rxWin), r.conn, DataOf(r.segs))
            && (r.conn.txPause <==> c.txPause && |r.conn.pending| >= 262144)
            && r.conn == c.(txSeq := r.conn.txSeq, pending := r.conn.pending, txPause := r.conn.txPause,
                            resumePermit := r.conn.resumePermit)
  {
    FlushFails(w, c);
    FlushSends(w, c);
    FlushMoves(w, c);
    FlushCount(w, c);
    PrefixIs(DataOf(FlushLoop(w, c).segs), c.pending);
  }

  /** On a closed channel a flush that has anything to send fails; one that has not changes nothing. */
  lemma FlushDead(w: Writer, c: Conn)
    requires !CanSend(w)
    ensures var r := Flush(w, c);
            && r.segs == [] && !CanSend(r.w)
            && (r.ok <==> Released(|c.pending|, c.txSeq, c.rxAck, c.rxWin) == 0)
            && (r.ok ==> r.conn.pending == c.pending)
  {
    FlushFails(w, c);
    if c.pending != [] && InFlight(c) < c.rxWin {
      ChunkFits(c);
    }
  }

  // ---- the handlers ------------------------------------------------------------------------

  lemma DataLets(w: Writer, c: Conn, bytes: Bytes)
    requires c.state.Connected?
    ensures var o := ClientData(w, c, bytes);
            var whole := c.pending + bytes;
            var n := Released(|whole|, c.txSeq, c.rxAck, c.rxWin);
            && (CanSend(o.w) ==>
                  && o.fate.Stay? && Lets(c, whole, n, o.conn, DataOf(o.segs))
                  && (o.conn.txPause <==> 1048576 < |o.conn.pending| || (c.txPause && 262144 <= |o.conn.pending|)))
            && (!CanSend(w) ==> o.segs == [] && (o.fate.Stay? <==> n == 0))
  {
    var c1 := c.(pending := c.pending + bytes);
    if CanSend(Flush(w, c1).w) {
      FlushLets(w, c1);
    }
    if !CanSend(w) {
      FlushDead(w, c1);
    }
    FlushFails(w, c1);
  }

  /** The last frame, if a connection has drained. */
  predicate EndsBare(segs: seq<Seg>) {
    segs != [] && segs[|segs| - 1].flags == 4 && segs[|segs| - 1].payload == []
  }

  lemma BareEnd(segs: seq<Seg>, s: Seg)
    requires s.payload == []
    ensures DataOf(segs + [s]) == DataOf(segs)
  {
    DataOfSnoc(segs, s);
    assert DataOf(segs) + [] == DataOf(segs);
  }

  lemma CloseLets(w: Writer, c: Conn)
    requires c.state.Connected?
    ensures var o := ClientClose(w, c);
            var n := Released(|c.pending|, c.txSeq, c.rxAck, c.rxWin);
            && (CanSend(o.w) ==>
                  && Lets(c, c.pending, n, o.conn, DataOf(o.segs)) && o.conn.clientClosed
                  && (o.conn.txPause <==> c.txPause && 262144 <= |o.conn.pending|)
                  && (o.fate.Stay? <==> n < |c.pending|) && (o.fate.Gone? ==> EndsBare(o.segs)))
            && (!CanSend(w) ==> o.segs == [] && (o.fate.Stay? <==> n == 0 < |c.pending|))
  {
    var c1 := c.(clientClosed := true);
    var r := Flush(w, c1);
    FlushFails(w, c1);
    if CanSend(r.w) {
      FlushLets(w, c1);
      BareEnd(r.segs, SegOf(r.conn, RST, []));
    }
    if !CanSend(w) {
      FlushDead(w, c1);
    }
  }

  /** An acknowledgement, its payload already counted in `c`. */
  lemma AckLets(w: Writer, first: seq<Seg>, c: Conn, deliver: seq<Bytes>)
    requires DataOf(first) == []
    ensures var o := FlushAndClose(w, first, c, deliver);
            var n := Released(|c.pending|, c.txSeq, c.rxAck, c.rxWin);
            && o.deliver == deliver && first <= o.segs
            && (CanSend(o.w) ==>
                  && Lets(c, c.pending, n, o.conn, DataOf(o.segs))
                  && (o.conn.txPause <==> c.txPause && 262144 <= |o.conn.pending|)
                  && (o.fate.Gone? <==> c.clientClosed && n == |c.pending|) && (o.fate.Gone? ==> EndsBare(o.segs))
                  && (o.fate.Stay? ==> o.conn.rxSeq == c.rxSeq && o.conn.rxAck == c.rxAck && o.conn.rxWin == c.rxWin))
  {
    var r := Flush(w, c);
    FlushFails(w, c);
    DataOfAppend(first, r.segs);
    if CanSend(r.w) {
      FlushLets(w, c);
      BareEnd(first + r.segs, SegOf(r.conn, RST, []));
    }
  }

  // ---- client messages ---------------------------------------------------------------------

  lemma SentData(l: Lane.Lane, l1: Lane.Lane, o: Outcome)
    requires l1.sent == l.sent
    ensures Lane.Record(l1, o).sent == l.sent + o.segs
    ensures DataOf(Lane.Record(l1, o).sent) == DataOf(l.sent) + DataOf(o.segs)
  {
    DataOfAppend(l.sent, o.segs);
  }

  /** The lane at `p` and the frames of its connection on the wire, before and after. */
  lemma Around(s: Sys, e: Event, p: U16)
    requires Reachable(s) && Can(s, e) && p in s.lanes && !(e.Connect? && s.nextPort == p)
    ensures var s' := Next(s, e);
            && p in s'.lanes && s'.lanes[p].conn.id == s.lanes[p].conn.id
            && OwnedBy(s.wire, s.lanes[p].conn.id) == s.lanes[p].sent
            && OwnedBy(s'.wire, s.lanes[p].conn.id) == s'.lanes[p].sent
            && (InTable(s, p) ==> !s.lanes[p].conn.state.Dead? && s.lanes[p].conn.sport == p)
  {
    Frames.EventLane(s, e, p);
    ReachableLane(s, p);
  }

  /** The mux task acts on bytes of an established connection's client. While the writer receives, the
      connection stays; of its unsent bytes and the new ones, in order, exactly those go out that the
      device's window has room for; and the pump is paused from then on if more than 1048576 bytes are
      left, or if it was paused and at least 262144 are. If the writer is gone the connection goes as
      soon as there is anything to send. */
  lemma DataEffect(s: Sys, p: U16, bytes: Bytes)
    requires Reachable(s) && Can(s, Process) && s.hand == Some((p, Some(bytes)))
    requires InTable(s, p) && s.lanes[p].conn.state.Connected?
    ensures var s', l := Next(s, Process), s.lanes[p];
            && p in s'.lanes
            && var l', c, sent := s'.lanes[p], l.conn, DataOf(OwnedBy(s.wire, l.conn.id));
               var whole := c.pending + bytes;
               var n := Released(|whole|, c.txSeq, c.rxAck, c.rxWin);
               && (CanSend(s'.writer) ==>
                     && l'.inTable && l'.accepted == l.accepted + bytes
                     && DataOf(OwnedBy(s'.wire, c.id)) == sent + whole[..n] && l'.conn.pending == whole[n..]
                     && (l'.conn.txPause <==>
                           1048576 < |l'.conn.pending| || (c.txPause && 262144 <= |l'.conn.pending|))
                     && (l'.conn.resumePermit <==> c.resumePermit || (c.txPause && |l'.conn.pending| < 262144)))
               && (!CanSend(s.writer) ==> s'.wire == s.wire && (l'.inTable <==> n == 0))
  {
    Around(s, Process, p);
    DataLane(s.lanes[p], s.writer, bytes);
    assert s.wire + [] == s.wire;
  }

  lemma DataLane(l: Lane.Lane, w: Writer, bytes: Bytes)
    requires Lane.Linked(l)
    ensures var l', c, o := Lane.OnMessage(l, w, Some(bytes)), l.conn, ClientData(w, l.conn, bytes);
            var whole := c.pending + bytes;
            var n := Released(|whole|, c.txSeq, c.rxAck, c.rxWin);
            && (CanSend(o.w) ==>
                  && l'.inTable && l'.accepted == l.accepted + bytes
                  && DataOf(l'.sent) == DataOf(l.sent) + whole[..n] && l'.conn.pending == whole[n..]
                  && (l'.conn.txPause <==> 1048576 < |l'.conn.pending| || (c.txPause && 262144 <= |l'.conn.pending|))
                  && (l'.conn.resumePermit <==> c.resumePermit || (c.txPause && |l'.conn.pending| < 262144)))
            && (!CanSend(w) ==> o.segs == [] && (l'.inTable <==> n == 0))
  {
    DataLets(w, l.conn, bytes);
    SentData(l, l.(accepted := l.accepted + bytes), ClientData(w, l.conn, bytes));
  }

  /** The mux task acts on the end of an established connection's client. While the writer receives,
      what the window has room for goes out, and the connection is reset and goes at once if that is
      all; otherwise it stays, closed. */
  lemma CloseEffect(s: Sys, p: U16)
    requires Reachable(s) && Can(s, Process) && s.hand == Some((p, None))
    requires InTable(s, p) && s.lanes[p].conn.state.Connected?
    ensures var s', l := Next(s, Process), s.lanes[p];
            && p in s'.lanes
            && var l', c, sent := s'.lanes[p], l.conn, DataOf(OwnedBy(s.wire, l.conn.id));
               var n := Released(|c.pending|, c.txSeq, c.rxAck, c.rxWin);
               && (CanSend(s'.writer) ==>
                     && DataOf(OwnedBy(s'.wire, c.id)) == sent + c.pending[..n] && l'.conn.pending == c.pending[n..]
                     && l'.conn.clientClosed && (l'.inTable <==> n < |c.pending|)
                     && (!l'.inTable ==> EndsBare(OwnedBy(s'.wire, c.id))))
               && (!CanSend(s.writer) ==> s'.wire == s.wire && (l'.inTable <==> n == 0 < |c.pending|))
  {
    Around(s, Process, p);
    CloseLane(s.lanes[p], s.writer);
    assert s.wire + [] == s.wire;
  }

  lemma CloseLane(l: Lane.Lane, w: Writer)
    requires Lane.Linked(l)
    ensures var l', c, o := Lane.OnMessage(l, w, None), l.conn, ClientClose(w, l.conn);
            var n := Released(|c.pending|, c.txSeq, c.rxAck, c.rxWin);
            && (CanSend(o.w) ==>
                  && DataOf(l'.sent) == DataOf(l.sent) + c.pending[..n] && l'.conn.pending == c.pending[n..]
                  && l'.conn.clientClosed && (l'.inTable <==> n < |c.pending|) && (!l'.inTable ==> EndsBare(l'.sent)))
            && (!CanSend(w) ==> o.segs == [] && (l'.inTable <==> n == 0 < |c.pending|))
  {
    CloseLets(w, l.conn);
    SentData(l, l, ClientClose(w, l.conn));
    EndsLast(l.sent, ClientClose(w, l.conn).segs);
  }

  /** A message for a port without an established connection is dropped. */
  lemma StrayEffect(s: Sys)
    requires Reachable(s) && Can(s, Process)
    requires !(InTable(s, s.hand.value.0) && s.lanes[s.hand.value.0].conn.state.Connected?)
    ensures Next(s, Process) == s.(hand := None)
  {
    var (p, msg) := s.hand.value;
    if InTable(s, p) {
      ReachableLane(s, p);
    }
  }

  // ---- segments from the device ------------------------------------------------------------

  lemma NothingSent(s: Sys, p: U16, l: Lane.Lane, o: Outcome)
    requires o.segs == [] && o.replies == []
    ensures Commit(s, p, l, o).wire == s.wire && Commit(s, p, l, o).replies == s.replies
  {
    assert s.wire + [] == s.wire && s.replies + [] == s.replies;
  }

  /** Any flags but ACK alone end an established connection: it leaves the table, the client gets
      nothing of the segment, and nothing is sent. */
  lemma OddFlagsEnd(s: Sys, seg: Seg)
    requires Reachable(s) && Can(s, Packet(seg)) && InTable(s, seg.dst) && s.lanes[seg.dst].conn.state.Connected?
    requires seg.flags != 0x10
    ensures var s', p := Next(s, Packet(seg)), seg.dst;
            && p in s'.lanes && !InTable(s', p) && s'.wire == s.wire && s'.replies == s.replies
            && s'.lanes[p].inbound == s.lanes[p].inbound && s'.lanes[p].rxQ == s.lanes[p].rxQ
  {
    var l := s.lanes[seg.dst];
    var o := Segment(s.writer, l.conn, seg, Lane.FwdAlive(l));
    ReachableLane(s, seg.dst);
    assert o.fate.Gone? && o.segs == [] && o.replies == [] && o.deliver == [];
    NothingSent(s, seg.dst, Lane.OnSegment(l, s.writer, seg), o);
    assert l.inbound + [] == l.inbound && l.rxQ + [] == l.rxQ;
  }

  /** The only answer that establishes a connection is SYN with ACK, and no other bit: it gets one bare
      ACK, the pump and the forwarder start, and the Connect succeeds. Any other answer ends it, and
      the Connect fails; nothing is sent. If the ACK cannot be sent nothing comes of it. */
  lemma AnswerDecides(s: Sys, seg: Seg)
    requires Reachable(s) && Can(s, Packet(seg)) && InTable(s, seg.dst) && s.lanes[seg.dst].conn.state.Connecting?
    ensures var s', p, c := Next(s, Packet(seg)), seg.dst, s.lanes[seg.dst].conn;
            && p in s'.lanes
            && var l' := s'.lanes[p];
               if seg.flags != 0x12 then
                 && !l'.inTable && s'.wire == s.wire && s'.replies == s.replies + [Answer(c.id, false)]
                 && l'.pump.PumpOff?
               else if CanSend(s.writer) then
                 && l'.inTable && l'.conn.state.Connected? && l'.pump.Checking? && l'.fwd.Idle?
                 && s'.wire == s.wire + [Wire(Some(c.id), Seg(p, c.dport, 1, 1, 16, 512, []))]
                 && s'.replies == s.replies + [Answer(c.id, true)]
                 && l'.conn.rxSeq == seg.seq_ && l'.conn.rxAck == seg.ack && l'.conn.rxWin == 256 * seg.window
               else
                 && l'.inTable && l'.conn.state.Connecting? && s'.wire == s.wire && s'.replies == s.replies
                 && l'.pump.PumpOff?
  {
    var l := s.lanes[seg.dst];
    var o := Segment(s.writer, l.conn, seg, Lane.FwdAlive(l));
    ReachableLane(s, seg.dst);
    StartsAtOne(s.writer, l, seg);
    PacketIs(s, seg, o);
  }

  /** A packet for an entry, whose outcome has at most one frame. */
  lemma PacketIs(s: Sys, seg: Seg, o: Outcome)
    requires InTable(s, seg.dst) && |o.segs| <= 1
    requires o == Segment(s.writer, s.lanes[seg.dst].conn, seg, Lane.FwdAlive(s.lanes[seg.dst]))
    requires o.conn.id == s.lanes[seg.dst].conn.id
    ensures var s', p, l := ProcessPacket(s, seg), seg.dst, s.lanes[seg.dst];
            && p in s'.lanes && s'.lanes[p].conn == o.conn && s'.lanes[p].inTable == o.fate.Stay?
            && s'.wire == s.wire + (if o.segs == [] then [] else [Wire(Some(o.conn.id), o.segs[0])])
            && s'.replies == s.replies + o.replies
            && (if !l.conn.state.Connected? && o.conn.state.Connected?
                then s'.lanes[p].pump.Checking? && s'.lanes[p].fwd.Idle? else s'.lanes[p].pump == l.pump)
  {
    assert Owned(o.conn.id, o.segs) == if o.segs == [] then [] else [Wire(Some(o.conn.id), o.segs[0])];
  }

  lemma StartsAtOne(w: Writer, l: Lane.Lane, seg: Seg)
    requires l.inTable && l.conn.state.Connecting? && l.conn.reply && l.pump.PumpOff? && l.conn.rxBuffered == 0
    requires CanSend(w) ==> l.conn.txSeq == 0 && l.conn.txAck == 0
    ensures var c, o := l.conn, Segment(w, l.conn, seg, Lane.FwdAlive(l));
            o.conn.id == c.id &&
            if seg.flags != 0x12 then
              o.fate.Gone? && o.segs == [] && o.replies == [Answer(c.id, false)] && !o.conn.state.Connected?
            else if CanSend(w) then
              && o.fate.Stay? && o.conn.state.Connected? && o.replies == [Answer(c.id, true)]
              && o.segs == [Seg(c.sport, c.dport, 1, 1, 16, 512, [])]
              && o.conn.rxSeq == seg.seq_ && o.conn.rxAck == seg.ack && o.conn.rxWin == 256 * seg.window
            else o.fate.Stay? && o.conn.state.Connecting? && o.segs == [] && o.replies == []
  {
  }

  /** Payload for a client that is gone: the connection is reset and goes. */
  lemma UndeliverableEnds(s: Sys, seg: Seg)
    requires Reachable(s) && Can(s, Packet(seg)) && InTable(s, seg.dst) && s.lanes[seg.dst].conn.state.Connected?
    requires seg.flags == 0x10 && seg.payload != [] && !Lane.FwdAlive(s.lanes[seg.dst])
    ensures var s', p, id := Next(s, Packet(seg)), seg.dst, s.lanes[seg.dst].conn.id;
            && p in s'.lanes && !InTable(s', p) && s'.lanes[p].inbound == s.lanes[p].inbound
            && DataOf(OwnedBy(s'.wire, id)) == DataOf(OwnedBy(s.wire, id))
            && |OwnedBy(s'.wire, id)| == |OwnedBy(s.wire, id)| + (if CanSend(s.writer) then 1 else 0)
            && (CanSend(s.writer) ==> EndsBare(OwnedBy(s'.wire, id)))
  {
    Around(s, Packet(seg), seg.dst);
    Undelivered(s.lanes[seg.dst], s.writer, seg);
  }

  lemma Undelivered(l: Lane.Lane, w: Writer, seg: Seg)
    requires Lane.Linked(l) && seg.flags == 0x10 && seg.payload != [] && !Lane.FwdAlive(l)
    ensures var l' := Lane.OnSegment(l, w, seg);
            && !l'.inTable && l'.inbound == l.inbound && DataOf(l'.sent) == DataOf(l.sent)
            && |l'.sent| == |l.sent| + (if CanSend(w) then 1 else 0) && (CanSend(w) ==> EndsBare(l'.sent))
  {
    var c0 := LaneProofs.Heard(l.conn, seg);
    var o := ResetAndRemove(w, [], c0, UserGone);
    assert Segment(w, l.conn, seg, false) == o;
    SentData(l, Lane.Judge(l, seg), o);
    if CanSend(w) {
      assert o.segs == [SegOf(c0, RST, [])];
      BareEnd(l.sent, SegOf(c0, RST, []));
    } else {
      assert o.segs == [] && l.sent + [] == l.sent;
    }
    assert l.inbound + [] == l.inbound;
  }

  lemma BareFirst(c: Conn)
    ensures DataOf([]) == [] && DataOf([SegOf(c, ACK, [])]) == []
  {
    var first := [SegOf(c, ACK, [])];
    assert first[1..] == [];
  }

  /** What an ACK-only segment that can be delivered does to a connection, by cases on its payload. */
  lemma AckCases(w: Writer, c: Conn, seg: Seg)
    requires c.state.Connected? && c.rxTx && seg.flags == 0x10
    ensures var o := Segment(w, c, seg, true);
            var n := Released(|c.pending|, c.txSeq, seg.ack, 256 * seg.window);
            && o.deliver == (if seg.payload == [] then [] else [seg.payload])
            && (CanSend(o.w) ==>
                  && Lets(c, c.pending, n, o.conn, DataOf(o.segs))
                  && (o.conn.txPause <==> c.txPause && 262144 <= |o.conn.pending|)
                  && (o.fate.Gone? <==> c.clientClosed && n == |c.pending|) && (o.fate.Gone? ==> EndsBare(o.segs))
                  && (o.fate.Stay? ==>
                        o.conn.rxSeq == seg.seq_ && o.conn.rxAck == seg.ack && o.conn.rxWin == 256 * seg.window)
                  && (seg.payload != [] ==> o.segs != [] && o.segs[0].flags == 16 && o.segs[0].payload == []))
  {
    var c0 := LaneProofs.Heard(c, seg);
    var c1 := LaneProofs.Counted(c0, seg.payload);
    BareFirst(c1);
    AckLets(w, [], c0, []);
    AckLets(SendWriter(w, []), [SegOf(c1, ACK, [])], c1, [seg.payload]);
  }

  /** ACK alone, with a payload the client's forwarder takes or with none. The payload goes to the
      client, whole and once, and is acknowledged before anything else is sent. While the writer
      receives, exactly those unsent bytes go out that the window in the segment has room for beyond
      its acknowledgement; and the connection goes if and only if its client has closed and that was
      all, with a bare RST as its last frame. */
  lemma AckEffect(s: Sys, seg: Seg)
    requires Reachable(s) && Can(s, Packet(seg)) && InTable(s, seg.dst) && s.lanes[seg.dst].conn.state.Connected?
    requires seg.flags == 0x10 && (seg.payload == [] || Lane.FwdAlive(s.lanes[seg.dst]))
    ensures var s', p, l := Next(s, Packet(seg)), seg.dst, s.lanes[seg.dst];
            && p in s'.lanes
            && var l', c := s'.lanes[p], l.conn;
               var before, after := OwnedBy(s.wire, c.id), OwnedBy(s'.wire, c.id);
               var n := Released(|c.pending|, c.txSeq, seg.ack, 256 * seg.window);
               && l'.inbound == l.inbound + seg.payload
               && l'.rxQ == l.rxQ + (if seg.payload == [] then [] else [seg.payload])
               && (CanSend(s'.writer) ==>
                     && DataOf(after) == DataOf(before) + c.pending[..n] && l'.conn.pending == c.pending[n..]
                     && (!l'.inTable <==> c.clientClosed && n == |c.pending|) && (!l'.inTable ==> EndsBare(after))
                     && (l'.conn.txPause <==> c.txPause && 262144 <= |l'.conn.pending|)
                     && (seg.payload != [] ==> |before| < |after| && after[|before|].payload == []
                                               && after[|before|].flags == 16))
               && (l'.inTable && CanSend(s'.writer) ==>
                     l'.conn.rxSeq == seg.seq_ && l'.conn.rxAck == seg.ack && l'.conn.rxWin == 256 * seg.window)
  {
    Around(s, Packet(seg), seg.dst);
    ReachableLane(s, seg.dst);
    AckLane(s.lanes[seg.dst], s.writer, seg);
  }

  lemma AckLane(l: Lane.Lane, w: Writer, seg: Seg)
    requires Lane.Linked(l) && l.conn.rxTx && seg.flags == 0x10 && (seg.payload == [] || Lane.FwdAlive(l))
    ensures var c, l', o := l.conn, Lane.OnSegment(l, w, seg), Segment(w, l.conn, seg, Lane.FwdAlive(l));
            var n := Released(|c.pending|, c.txSeq, seg.ack, 256 * seg.window);
            && l'.inbound == l.inbound + seg.payload
            && l'.rxQ == l.rxQ + (if seg.payload == [] then [] else [seg.payload])
            && l'.sent == l.sent + o.segs
            && (CanSend(o.w) ==>
                  && DataOf(l'.sent) == DataOf(l.sent) + c.pending[..n] && l'.conn.pending == c.pending[n..]
                  && (!l'.inTable <==> c.clientClosed && n == |c.pending|) && (!l'.inTable ==> EndsBare(l'.sent))
                  && (l'.conn.txPause <==> c.txPause && 262144 <= |l'.conn.pending|)
                  && (seg.payload != [] ==> o.segs != [] && l'.sent[|l.sent|].payload == []
                                            && l'.sent[|l.sent|].flags == 16))
            && (l'.inTable && CanSend(o.w) ==>
                  l'.conn.rxSeq == seg.seq_ && l'.conn.rxAck == seg.ack && l'.conn.rxWin == 256 * seg.window)
  {
    var o := Segment(w, l.conn, seg, Lane.FwdAlive(l));
    assert o == Segment(w, l.conn, seg, true);
    AckCases(w, l.conn, seg);
    SentData(l, Lane.Judge(l, seg), o);
    Delivers(Lane.Judge(l, seg), o, seg.payload);
    EndsLast(l.sent, o.segs);
  }

  lemma EndsLast(a: seq<Seg>, b: seq<Seg>)
    ensures EndsBare(b) ==> EndsBare(a + b)
  {
  }

  lemma Delivers(l: Lane.Lane, o: Outcome, payload: Bytes)
    requires o.deliver == if payload == [] then [] else [payload]
    ensures Lane.Record(l, o).inbound == l.inbound + payload
  {
    if payload != [] {
      LaneProofs.DeliveryGrows(l, o, payload);
    }
  }

  /** A segment for a port without an entry is answered with one RST that acknowledges its sequence
      number, unless it is itself a reset; no connection notices. */
  lemma StrangerEffect(s: Sys, seg: Seg)
    requires Can(s, Packet(seg)) && !InTable(s, seg.dst)
    ensures var s' := Next(s, Packet(seg));
            && s'.lanes == s.lanes && s'.replies == s.replies
            && s'.wire == s.wire + if seg.flags / 4 % 2 == 0 && CanSend(s.writer)
                                   then [Wire(None, Seg(seg.dst, seg.src, 0, seg.seq_, 4, 512, []))] else []
  {
  }

  // ---- drains, Connects, shutdown ----------------------------------------------------------

  /** A drain report frees that many bytes, as far as there are any buffered. One bare ACK shows the
      new room if and only if there was none for a full payload, 49116 bytes, and now there is. */
  lemma DrainEffect(s: Sys)
    requires Reachable(s) && Can(s, Drain)
    ensures var s', (p, n) := Next(s, Drain), s.drainQ[0];
            && s'.drainQ == s.drainQ[1..] && s'.replies == s.replies
            && if !InTable(s, p) then s'.lanes == s.lanes && s'.wire == s.wire
               else
                 && p in s'.lanes
                 && var l, l' := s.lanes[p], s'.lanes[p];
                    var before, after := Frames.Free(l.conn.rxBuffered), Frames.Free(l'.conn.rxBuffered);
                    && l'.inTable && l'.conn == l.conn.(rxBuffered := l'.conn.rxBuffered)
                    && l'.conn.rxBuffered == (if n <= l.conn.rxBuffered then l.conn.rxBuffered - n else 0)
                    && |s'.wire| == |s.wire| + (if l.conn.state.Connected? && before < 49116 <= after
                                                   && CanSend(s.writer) then 1 else 0)
                    && s.wire <= s'.wire
                    && (|s.wire| < |s'.wire| ==>
                          var x := s'.wire[|s.wire|];
                          x.owner == Some(l.conn.id) && x.seg.flags == 16 && x.seg.payload == [])
  {
    var (p, n) := s.drainQ[0];
    if InTable(s, p) {
      var o := DrainReport(s.writer, s.lanes[p].conn, n);
      if o.segs == [] {
        NothingSent(s, p, Lane.OnDrain(s.lanes[p], s.writer, n), o);
      } else {
        assert Owned(s.lanes[p].conn.id, o.segs) == [Wire(Some(s.lanes[p].conn.id), o.segs[0])];
      }
    }
  }

  /** A Connect sends one SYN, numbered 0, from the next port to the one asked for, showing 131072
      bytes of room, and waits in the table. If the SYN cannot be sent it fails. */
  lemma ConnectEffect(s: Sys, dport: U16)
    requires Reachable(s) && Can(s, Connect(dport))
    ensures var s', p, id := Next(s, Connect(dport)), s.nextPort, s.connects;
            && s'.connects == id + 1 && s'.nextPort == (if p == 65535 then 1 else p + 1)
            && if CanSend(s.writer) then
                 && s'.wire == s.wire + [Wire(Some(id), Seg(p, dport, 0, 0, 2, 512, []))]
                 && s'.replies == s.replies && p in s'.lanes && s'.lanes == s.lanes[p := s'.lanes[p]]
                 && s'.lanes[p].inTable && s'.lanes[p].conn.state.Connecting? && s'.lanes[p].conn.reply
                 && s'.lanes[p].conn.id == id && s'.lanes[p].conn.dport == dport
               else
                 s'.wire == s.wire && s'.lanes == s.lanes && s'.replies == s.replies + [Answer(id, false)]
  {
    var o := Opened(s.writer, s.connects, s.nextPort, dport);
    if CanSend(s.writer) {
      assert Owned(s.connects, o.segs) == [Wire(Some(s.connects), o.segs[0])];
      assert s.replies + [] == s.replies;
    }
    ReachableIds(s);
  }

  lemma CloseOneEffect(s: Sys, p: U16)
    requires InTable(s, p)
    ensures var s', c := SystemProofs.CloseOne(s, p), s.lanes[p].conn;
            && s'.wire == s.wire + (if CanSend(s.writer) then [Wire(Some(c.id), SegOf(c, 4, []))] else [])
            && s'.replies == s.replies + (if c.reply then [Answer(c.id, false)] else [])
            && (CanSend(s'.writer) ==> CanSend(s.writer))
            && s'.lanes == s.lanes[p := s'.lanes[p]]
  {
    var o := ResetAndRemove(s.writer, [], s.lanes[p].conn, ShutDown);
    assert o.segs == SendSegs(s.writer, s.lanes[p].conn, RST, []);
    assert o.segs != [] ==> Owned(s.lanes[p].conn.id, o.segs) == [Wire(Some(s.lanes[p].conn.id), o.segs[0])];
  }

  predicate Tabled(s: Sys, order: seq<U16>) {
    && (forall i :: 0 <= i < |order| ==> InTable(s, order[i]))
    && (forall i, j :: 0 <= i < j < |order| ==> order[i] != order[j])
  }

  /** The resets of the entries in `order`, and the answers to those that wait. */
  function Resets(s: Sys, order: seq<U16>): seq<Wire>
    requires Tabled(s, order)
  {
    if order == [] then []
    else
      var c := s.lanes[order[0]].conn;
      [Wire(Some(c.id), Seg(c.sport, c.dport, c.txSeq, c.txAck, 4, Frames.Free(c.rxBuffered) / 256, []))]
      + Resets(s, order[1..])
  }

  function Refusals(s: Sys, order: seq<U16>): seq<Answer>
    requires Tabled(s, order)
  {
    if order == [] then []
    else
      var c := s.lanes[order[0]].conn;
      (if c.reply then [Answer(c.id, false)] else []) + Refusals(s, order[1..])
  }

  lemma {:induction false} SameResets(s: Sys, s': Sys, order: seq<U16>)
    requires Tabled(s, order) && Tabled(s', order)
    requires forall i :: 0 <= i < |order| ==> s'.lanes[order[i]] == s.lanes[order[i]]
    ensures Resets(s', order) == Resets(s, order) && Refusals(s', order) == Refusals(s, order)
  {
    if order != [] {
      SameResets(s, s', order[1..]);
    }
  }

  lemma RestTabled(s: Sys, order: seq<U16>)
    requires order != [] && Tabled(s, order)
    ensures var s1, rest := SystemProofs.CloseOne(s, order[0]), order[1..];
            && Tabled(s, rest) && Tabled(s1, rest)
            && Resets(s1, rest) == Resets(s, rest) && Refusals(s1, rest) == Refusals(s, rest)
  {
    var s1, rest := SystemProofs.CloseOne(s, order[0]), order[1..];
    CloseOneEffect(s, order[0]);
    assert forall i :: 0 <= i < |rest| ==> rest[i] == order[i + 1] && rest[i] != order[0];
    SameResets(s, s1, rest);
  }

  lemma {:induction false} ShutDownEffects(s: Sys, order: seq<U16>)
    requires Tabled(s, order)
    ensures var s' := ShutDownAll(s, order);
            && !s'.running && s'.replies == s.replies + Refusals(s, order)
            && (CanSend(s'.writer) ==> CanSend(s.writer) && s'.wire == s.wire + Resets(s, order))
    decreases |order|
  {
    if order == [] {
      assert s.replies + [] == s.replies && s.wire + [] == s.wire;
    } else {
      RestTabled(s, order);
      CloseOneEffect(s, order[0]);
      ResetIs(s, order[0]);
      ShutDownEffects(SystemProofs.CloseOne(s, order[0]), order[1..]);
    }
  }

  lemma ResetIs(s: Sys, p: U16)
    requires p in s.lanes
    ensures var c := s.lanes[p].conn;
            SegOf(c, 4, []) == Seg(c.sport, c.dport, c.txSeq, c.txAck, 4, Frames.Free(c.rxBuffered) / 256, [])
  {
  }

  lemma OrderTabled(s: Sys, order: seq<U16>)
    requires IsTableOrder(s, order)
    ensures Tabled(s, order)
  {
    forall i | 0 <= i < |order| ensures InTable(s, order[i]) {
      assert order[i] in order;
    }
  }

  /** The shutdown: every entry's Connect that still waits fails, and while the writer receives every
      entry is sent one RST, with its own ports and numbers, in the order the table yields them. */
  lemma ShutdownEffect(s: Sys, order: seq<U16>)
    requires Can(s, Shutdown(order))
    ensures Tabled(s, order) && forall p :: p in order <==> InTable(s, p)
    ensures var s' := Next(s, Shutdown(order));
            && !s'.running && s'.replies == s.replies + Refusals(s, order)
            && (CanSend(s'.writer) ==> s'.wire == s.wire + Resets(s, order))
  {
    OrderTabled(s, order);
    ShutDownEffects(s, order);
  }
}
