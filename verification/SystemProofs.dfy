/** Every event of the mux keeps `System.Inv`, so every run does. */
module SystemProofs {
  import opened Prelude
  import opened Codec
  import opened ConnSpec
  import opened System
  import Lane
  import LaneProofs

  // ---- queues and the wire -----------------------------------------------------------------

  lemma {:induction false} ProjSnoc<T>(q: seq<(U16, T)>, x: (U16, T), p: U16)
    ensures Proj(q + [x], p) == Proj(q, p) + if x.0 == p then [x.1] else []
  {
    if q == [] {
      assert q + [x] == [x];
    } else {
      assert (q + [x])[1..] == q[1..] + [x];
      ProjSnoc(q[1..], x, p);
    }
  }

  lemma {:induction false} ProjBounded<T>(q: seq<(U16, T)>, p: U16)
    ensures |Proj(q, p)| <= |q|
  {
    if q != [] {
      ProjBounded(q[1..], p);
    }
  }

  /** A port no message names has an empty projection. */
  lemma {:induction false} ProjEmpty<T>(q: seq<(U16, T)>, p: U16)
    requires forall m :: m in q ==> m.0 != p
    ensures Proj(q, p) == []
  {
    if q != [] {
      assert q[0] in q;
      ProjEmpty(q[1..], p);
    }
  }

  lemma {:induction false} OwnedByAppend(a: seq<Wire>, b: seq<Wire>, id: nat)
    ensures OwnedBy(a + b, id) == OwnedBy(a, id) + OwnedBy(b, id)
  {
    if a == [] {
      assert a + b == b;
    } else {
      assert (a + b)[1..] == a[1..] + b;
      OwnedByAppend(a[1..], b, id);
    }
  }

  lemma {:induction false} OwnedFrames(segs: seq<Seg>, id: nat, id': nat)
    ensures OwnedBy(Owned(id, segs), id') == if id == id' then segs else []
    ensures forall x :: x in Owned(id, segs) ==> x.owner == Some(id)
  {
    if segs != [] {
      assert Owned(id, segs)[1..] == Owned(id, segs[1..]);
      OwnedFrames(segs[1..], id, id');
    }
  }

  lemma {:induction false} NotYetOnWire(wire: seq<Wire>, id: nat)
    requires forall i :: 0 <= i < |wire| && wire[i].owner.Some? ==> wire[i].owner.value < id
    ensures OwnedBy(wire, id) == []
  {
    if wire != [] {
      assert wire[0].owner != Some(id);
      NotYetOnWire(wire[1..], id);
    }
  }

  // ---- what every handler does to identity, replies and the writer -------------------------

  /** The outcome is about the same connection; a reply is given exactly when it is owed. */
  predicate Resolves(c: Conn, w: Writer, o: Outcome) {
    && o.conn.id == c.id && o.conn.sport == c.sport && o.conn.dport == c.dport
    && (CanSend(o.w) ==> CanSend(w))
    && (if c.reply && !o.conn.reply then |o.replies| == 1 && o.replies[0].id == c.id
        else o.replies == [] && o.conn.reply == c.reply)
    && (o.replies == [] || (o.replies[0].ok <==> o.fate.Stay?))
  }

  lemma FlushResolves(w: Writer, c: Conn)
    ensures var r := Flush(w, c);
            && r.conn.id == c.id && r.conn.sport == c.sport && r.conn.dport == c.dport && r.conn.reply == c.reply
            && (CanSend(r.w) ==> CanSend(w))
  {
    FlushFails(w, c);
  }

  lemma MessageResolves(w: Writer, c: Conn, msg: Option<Bytes>)
    ensures Resolves(c, w, ClientMessage(w, c, msg))
  {
    if msg.Some? {
      FlushResolves(w, c.(pending := c.pending + msg.value));
    } else {
      FlushResolves(w, c.(clientClosed := true));
    }
  }

  lemma FlushAndCloseResolves(w: Writer, segs: seq<Seg>, c: Conn, deliver: seq<Bytes>)
    ensures Resolves(c, w, FlushAndClose(w, segs, c, deliver))
  {
    FlushResolves(w, c);
  }

  lemma AckResolves(w: Writer, c: Conn, payload: Bytes, alive: bool)
    ensures Resolves(c, w, AckSegment(w, c, payload, alive))
  {
    var c1 := LaneProofs.Counted(c, payload);
    FlushAndCloseResolves(w, [], c, []);
    FlushAndCloseResolves(SendWriter(w, []), [SegOf(c1, ACK, [])], c1, [payload]);
  }

  lemma SegmentResolves(w: Writer, c: Conn, s: Seg, alive: bool)
    ensures Resolves(c, w, Segment(w, c, s, alive))
  {
    var c0 := LaneProofs.Heard(c, s);
    var o := Segment(w, c, s, alive);
    if !c.state.Dead? {
      LaneProofs.SegmentCases(w, c, s, alive);
      AckResolves(w, c0, s.payload, alive);
      assert Resolves(c0, w, o);
    }
  }

  // ---- one connection's event in the whole -------------------------------------------------

  /** An event of the connection in lane `p`: only that lane, its share of the queues, the writer,
      the wire and the replies move. */
  predicate LaneEvent(s: Sys, s': Sys, p: U16, w: Writer, o: Outcome) {
    && p in s.lanes && s.lanes[p].inTable && p in s'.lanes
    && s'.lanes == s.lanes[p := s'.lanes[p]]
    && s'.lanes[p].conn == o.conn && s'.lanes[p].inTable == o.fate.Stay?
    && s'.lanes[p].sent == s.lanes[p].sent + o.segs
    && s'.writer == o.w && s'.wire == s.wire + Owned(o.conn.id, o.segs) && s'.replies == s.replies + o.replies
    && s'.connects == s.connects && s'.nextPort == s.nextPort && s'.running == s.running
    && (forall q :: q in s.lanes && q != p ==> DataFor(s', q) == DataFor(s, q) && DrainsFor(s', q) == DrainsFor(s, q))
    && Resolves(s.lanes[p].conn, w, o) && w == s.writer
  }

  lemma OtherLane(s: Sys, s': Sys, p: U16, o: Outcome, q: U16)
    requires LaneEvent(s, s', p, s.writer, o) && q in s.lanes && q != p && LaneOk(s, q)
    requires s.lanes[q].conn.id != o.conn.id
    ensures LaneOk(s', q)
  {
    var id := s.lanes[q].conn.id;
    OwnedByAppend(s.wire, Owned(o.conn.id, o.segs), id);
    OwnedFrames(o.segs, o.conn.id, id);
    assert OwnedBy(s.wire, id) + [] == OwnedBy(s.wire, id);
    Lane.InvDies(s.lanes[q], DataFor(s, q), DrainsFor(s, q), CanSend(s.writer), CanSend(s'.writer));
  }

  lemma OtherLanes(s: Sys, s': Sys, p: U16, o: Outcome)
    requires Inv(s) && LaneEvent(s, s', p, s.writer, o)
    ensures forall q :: q in s.lanes && q != p ==> LaneOk(s', q)
  {
    forall q | q in s.lanes && q != p ensures LaneOk(s', q) {
      OtherLane(s, s', p, o, q);
    }
  }

  /** Whatever lane `p` answers, it was pending before and is not afterwards. */
  predicate Books(s: Sys, s': Sys, p: U16, o: Outcome) {
    && LaneEvent(s, s', p, s.writer, o)
    && s.lanes[p].conn.id < s.connects
    && (o.fate.Gone? ==> !o.conn.reply)
  }

  lemma AnswersStayUnique(s: Sys, s': Sys, p: U16, o: Outcome)
    requires Accounts(s) && Books(s, s', p, o)
    ensures forall i, j :: 0 <= i < j < |s'.replies| ==> s'.replies[i].id != s'.replies[j].id
    ensures forall i :: 0 <= i < |s'.replies| ==> s'.replies[i].id < s'.connects
  {
    if o.replies != [] {
      assert PendingAt(s, p, s.lanes[p].conn.id);
      assert o.replies == [o.replies[0]];
    } else {
      assert s'.replies == s.replies;
    }
  }

  lemma PendingStaysUnanswered(s: Sys, s': Sys, p: U16, o: Outcome, q: U16, id: nat)
    requires Accounts(s) && Books(s, s', p, o)
    requires forall q :: q in s.lanes && q != p ==> s.lanes[q].conn.id != s.lanes[p].conn.id
    requires PendingAt(s', q, id)
    ensures !Replied(s', id)
  {
    assert PendingAt(s, q, id);
    if o.replies != [] {
      assert o.replies == [o.replies[0]] && o.replies[0].id == s.lanes[p].conn.id;
    }
  }

  lemma EveryConnectAccounted(s: Sys, s': Sys, p: U16, o: Outcome, id: nat)
    requires Accounts(s) && Books(s, s', p, o)
    requires id < s.connects
    ensures Replied(s', id) || exists q :: PendingAt(s', q, id)
  {
    if Replied(s, id) {
      var i :| 0 <= i < |s.replies| && s.replies[i].id == id;
      assert s'.replies[i].id == id;
    } else {
      var q :| PendingAt(s, q, id);
      if q == p && o.replies != [] {
        assert s'.replies[|s.replies|].id == id;
      } else {
        assert PendingAt(s', q, id);
      }
    }
  }

  lemma LaneEventAccounts(s: Sys, s': Sys, p: U16, o: Outcome)
    requires Accounts(s) && Books(s, s', p, o)
    requires forall q :: q in s.lanes && q != p ==> s.lanes[q].conn.id != s.lanes[p].conn.id
    ensures Accounts(s')
  {
    AnswersStayUnique(s, s', p, o);
    forall q, id | PendingAt(s', q, id) ensures !Replied(s', id) {
      PendingStaysUnanswered(s, s', p, o, q, id);
    }
    forall id | 0 <= id < s'.connects ensures Replied(s', id) || exists q :: PendingAt(s', q, id) {
      EveryConnectAccounted(s, s', p, o, id);
    }
  }

  lemma WireGrows(s: Sys, s': Sys, id: nat, segs: seq<Seg>)
    requires forall i :: 0 <= i < |s.wire| && s.wire[i].owner.Some? ==> s.wire[i].owner.value < s.connects
    requires id < s'.connects && s.connects <= s'.connects
    requires s'.wire == s.wire + Owned(id, segs)
    ensures OwnedBy(s'.wire, id) == OwnedBy(s.wire, id) + segs
    ensures forall i :: 0 <= i < |s'.wire| && s'.wire[i].owner.Some? ==> s'.wire[i].owner.value < s'.connects
  {
    OwnedByAppend(s.wire, Owned(id, segs), id);
    OwnedFrames(segs, id, id);
    forall i | 0 <= i < |s'.wire| && s'.wire[i].owner.Some? ensures s'.wire[i].owner.value < s'.connects {
      if i >= |s.wire| {
        assert s'.wire[i] in Owned(id, segs);
      }
    }
  }

  lemma ActingLane(s: Sys, s': Sys, p: U16, o: Outcome)
    requires LaneEvent(s, s', p, s.writer, o) && LaneOk(s, p)
    requires Lane.Inv(s'.lanes[p], DataFor(s', p), DrainsFor(s', p), CanSend(s'.writer))
    requires OwnedBy(s'.wire, o.conn.id) == OwnedBy(s.wire, o.conn.id) + o.segs
    ensures LaneOk(s', p)
  {
  }

  lemma SameIds(s: Sys, s': Sys, p: U16, o: Outcome)
    requires Ids(s) && LaneEvent(s, s', p, s.writer, o)
    requires forall i :: 0 <= i < |s'.wire| && s'.wire[i].owner.Some? ==> s'.wire[i].owner.value < s'.connects
    ensures Ids(s')
  {
  }

  lemma LaneEventLane(s: Sys, s': Sys, p: U16, o: Outcome)
    requires LaneEvent(s, s', p, s.writer, o) && LaneOk(s, p)
    requires Lane.Inv(s'.lanes[p], DataFor(s', p), DrainsFor(s', p), CanSend(s'.writer))
    ensures LaneOk(s', p)
  {
    OwnedByAppend(s.wire, Owned(o.conn.id, o.segs), o.conn.id);
    OwnedFrames(o.segs, o.conn.id, o.conn.id);
    ActingLane(s, s', p, o);
  }

  lemma LaneEventLanes(s: Sys, s': Sys, p: U16, o: Outcome)
    requires Inv(s) && LaneEvent(s, s', p, s.writer, o)
    requires Lane.Inv(s'.lanes[p], DataFor(s', p), DrainsFor(s', p), CanSend(s'.writer))
    ensures LaneOk(s', p) && forall q :: q in s'.lanes && q != p ==> LaneOk(s', q)
  {
    LaneEventLane(s, s', p, o);
    OtherLanes(s, s', p, o);
  }

  lemma LaneEventBooks(s: Sys, s': Sys, p: U16, o: Outcome)
    requires Inv(s) && LaneEvent(s, s', p, s.writer, o)
    requires o.fate.Gone? ==> !o.conn.reply
    ensures Accounts(s') && Ids(s') && s'.running
  {
    assert LaneOk(s, p);
    LaneEventAccounts(s, s', p, o);
    WireGrows(s, s', o.conn.id, o.segs);
    SameIds(s, s', p, o);
    assert InTable(s, p);
  }

  lemma LaneEventKeeps(s: Sys, s': Sys, p: U16, o: Outcome)
    requires Inv(s) && LaneEvent(s, s', p, s.writer, o)
    requires Queues(s')
    requires Lane.Inv(s'.lanes[p], DataFor(s', p), DrainsFor(s', p), CanSend(s'.writer))
    ensures Inv(s')
  {
    LaneEventLanes(s, s', p, o);
    LaneEventBooks(s, s', p, o);
    Assemble(s', p);
  }

  lemma AssembleAll(s: Sys)
    requires (forall q :: q in s.lanes ==> LaneOk(s, q))
    requires Queues(s) && Accounts(s) && Ids(s) && Halted(s)
    ensures Inv(s)
  {
  }

  lemma Assemble(s: Sys, p: U16)
    requires p in s.lanes && LaneOk(s, p) && (forall q :: q in s.lanes && q != p ==> LaneOk(s, q))
    requires Queues(s) && Accounts(s) && Ids(s) && Halted(s)
    ensures Inv(s)
  {
    forall q | q in s.lanes ensures LaneOk(s, q) {
      if q != p {
        assert LaneOk(s, q);
      }
    }
  }

  // ---- the mux task's events ---------------------------------------------------------------

  lemma ProcessSplits(s: Sys)
    requires s.hand.Some?
    ensures var s', (p, msg) := ProcessMessage(s), s.hand.value;
            && DataFor(s, p) == [msg] + DataFor(s', p) && |DataFor(s', p)| <= |s.dataQ|
            && (forall q :: q != p ==> DataFor(s', q) == DataFor(s, q))
            && (forall q :: DrainsFor(s', q) == DrainsFor(s, q))
            && s'.dataQ == s.dataQ && s'.drainQ == s.drainQ && s'.hand.None?
  {
    ProjBounded(s.dataQ, s.hand.value.0);
  }

  lemma ProcessLive(s: Sys)
    requires Inv(s) && s.hand.Some? && InTable(s, s.hand.value.0)
    ensures Inv(ProcessMessage(s))
  {
    var (p, msg) := s.hand.value;
    var s' := ProcessMessage(s);
    var l := s.lanes[p];
    assert LaneOk(s, p);
    ProcessSplits(s);
    MessageResolves(s.writer, l.conn, msg);
    MessageLane(l, s.writer, msg, DataFor(s', p), DrainsFor(s, p));
    LaneEventKeeps(s, s', p, ClientMessage(s.writer, l.conn, msg));
  }

  lemma ProcessKeeps(s: Sys)
    requires Inv(s) && s.hand.Some?
    ensures Inv(ProcessMessage(s))
  {
    var (p, msg) := s.hand.value;
    if InTable(s, p) {
      ProcessLive(s);
    } else {
      var s' := ProcessMessage(s);
      assert LaneOk(s, p);
      ProcessSplits(s);
      LaneProofs.StaleSteps(s.lanes[p], DataFor(s', p), DrainsFor(s, p), CanSend(s.writer));
      TaskEventKeeps(s, s', p);
    }
  }

  lemma MessageLane(l: Lane.Lane, w: Writer, msg: Option<Bytes>, data: seq<Option<Bytes>>, drains: seq<nat>)
    requires l.inTable && |data| <= DATA_CAPACITY && Lane.Inv(l, [msg] + data, drains, CanSend(w))
    ensures Lane.Inv(Lane.OnMessage(l, w, msg), data, drains, CanSend(ClientMessage(w, l.conn, msg).w))
  {
    if msg.Some? {
      LaneProofs.DataStep(l, w, msg.value, data, drains);
    } else {
      LaneProofs.CloseStep(l, w, data, drains);
    }
  }

  lemma DrainResolves(w: Writer, c: Conn, n: U32)
    ensures Resolves(c, w, DrainReport(w, c, n))
  {
  }

  lemma DrainSplits(s: Sys)
    requires s.drainQ != []
    ensures var s', (p, n) := ProcessDrain(s), s.drainQ[0];
            && DrainsFor(s, p) == [n] + DrainsFor(s', p)
            && (forall q :: q != p ==> DrainsFor(s', q) == DrainsFor(s, q))
            && (forall q :: DataFor(s', q) == DataFor(s, q))
            && s'.dataQ == s.dataQ && s'.hand == s.hand && s'.drainQ == s.drainQ[1..]
  {
  }

  lemma DrainLive(s: Sys)
    requires Inv(s) && s.drainQ != [] && InTable(s, s.drainQ[0].0)
    ensures Inv(ProcessDrain(s))
  {
    var (p, n) := s.drainQ[0];
    var s' := ProcessDrain(s);
    var l := s.lanes[p];
    assert LaneOk(s, p);
    DrainSplits(s);
    DrainResolves(s.writer, l.conn, n);
    LaneProofs.DrainStep(l, s.writer, n, DataFor(s, p), DrainsFor(s', p));
    LaneEventKeeps(s, s', p, DrainReport(s.writer, l.conn, n));
  }

  lemma DrainKeeps(s: Sys)
    requires Inv(s) && s.drainQ != []
    ensures Inv(ProcessDrain(s))
  {
    var (p, n) := s.drainQ[0];
    assert s.drainQ[0] in s.drainQ;
    if InTable(s, p) {
      DrainLive(s);
    } else {
      var s' := ProcessDrain(s);
      assert LaneOk(s, p);
      DrainSplits(s);
      LaneProofs.StaleSteps(s.lanes[p], DataFor(s, p), DrainsFor(s', p), CanSend(s.writer));
      TaskEventKeeps(s, s', p);
    }
  }

  function SegmentOutcome(s: Sys, seg: Seg): Outcome
    requires InTable(s, seg.dst)
  {
    Segment(s.writer, s.lanes[seg.dst].conn, seg, Lane.FwdAlive(s.lanes[seg.dst]))
  }

  lemma PacketIsLaneEvent(s: Sys, seg: Seg) returns (o: Outcome)
    requires InTable(s, seg.dst)
    ensures o == SegmentOutcome(s, seg)
    ensures var s' := ProcessPacket(s, seg);
            && LaneEvent(s, s', seg.dst, s.writer, o)
            && s'.lanes[seg.dst] == Lane.OnSegment(s.lanes[seg.dst], s.writer, seg)
            && s'.dataQ == s.dataQ && s'.hand == s.hand && s'.drainQ == s.drainQ
  {
    o := SegmentOutcome(s, seg);
    SegmentResolves(s.writer, s.lanes[seg.dst].conn, seg, Lane.FwdAlive(s.lanes[seg.dst]));
  }

  lemma PacketLane(s: Sys, seg: Seg) returns (o: Outcome)
    requires InTable(s, seg.dst) && LaneOk(s, seg.dst)
    ensures var s', p := ProcessPacket(s, seg), seg.dst;
            && LaneEvent(s, s', p, s.writer, o)
            && Lane.Inv(s'.lanes[p], DataFor(s', p), DrainsFor(s', p), CanSend(s'.writer))
            && s'.dataQ == s.dataQ && s'.hand == s.hand && s'.drainQ == s.drainQ && s'.lanes.Keys == s.lanes.Keys
  {
    var p := seg.dst;
    o := PacketIsLaneEvent(s, seg);
    LaneProofs.SegmentStep(s.lanes[p], seg, s.writer, DataFor(s, p), DrainsFor(s, p));
  }

  lemma PacketLive(s: Sys, seg: Seg)
    requires Inv(s) && InTable(s, seg.dst)
    ensures Inv(ProcessPacket(s, seg))
  {
    var o := PacketLane(s, seg);
    var s' := ProcessPacket(s, seg);
    assert Queues(s');
    LaneEventKeeps(s, s', seg.dst, o);
  }

  lemma PacketKeeps(s: Sys, seg: Seg)
    requires Inv(s) && s.running
    ensures Inv(ProcessPacket(s, seg))
  {
    if InTable(s, seg.dst) {
      PacketLive(s, seg);
    } else if Stranger(seg) != [] {
      StrangerKeeps(s, ProcessPacket(s, seg), Stranger(seg)[0]);
    }
  }

  lemma StrangerLane(s: Sys, s': Sys, q: U16, seg: Seg)
    requires q in s.lanes && LaneOk(s, q) && s' == s.(writer := s'.writer, wire := s'.wire)
    requires CanSend(s'.writer) ==> CanSend(s.writer)
    requires s'.wire == s.wire || s'.wire == s.wire + [Wire(None, seg)]
    ensures LaneOk(s', q)
  {
    var id := s.lanes[q].conn.id;
    OwnedByAppend(s.wire, [Wire(None, seg)], id);
    assert OwnedBy([Wire(None, seg)], id) == [] + OwnedBy([], id);
    assert OwnedBy(s.wire, id) + [] == OwnedBy(s.wire, id);
    Lane.InvDies(s.lanes[q], DataFor(s, q), DrainsFor(s, q), CanSend(s.writer), CanSend(s'.writer));
  }

  lemma StrangerLanes(s: Sys, s': Sys, seg: Seg)
    requires (forall q :: q in s.lanes ==> LaneOk(s, q)) && s' == s.(writer := s'.writer, wire := s'.wire)
    requires CanSend(s'.writer) ==> CanSend(s.writer)
    requires s'.wire == s.wire || s'.wire == s.wire + [Wire(None, seg)]
    ensures forall q :: q in s'.lanes ==> LaneOk(s', q)
  {
    forall q | q in s'.lanes ensures LaneOk(s', q) {
      StrangerLane(s, s', q, seg);
    }
  }

  /** A frame that belongs to no connection leaves every connection's history alone. */
  lemma StrangerKeeps(s: Sys, s': Sys, seg: Seg)
    requires Inv(s) && s' == s.(writer := s'.writer, wire := s'.wire) && s.running
    requires CanSend(s'.writer) ==> CanSend(s.writer)
    requires s'.wire == s.wire || s'.wire == s.wire + [Wire(None, seg)]
    ensures Inv(s')
  {
    StrangerLanes(s, s', seg);
    SameBooks(s, s');
    AssembleAll(s');
  }

  /** The books depend on nothing but the lanes' connections, the counters and the replies. */
  lemma SameBooks(s: Sys, s': Sys)
    requires Accounts(s) && s'.replies == s.replies && s'.connects == s.connects
    requires s'.lanes.Keys == s.lanes.Keys
    requires forall p :: p in s.lanes ==> s'.lanes[p].inTable == s.lanes[p].inTable
                                          && s'.lanes[p].conn.reply == s.lanes[p].conn.reply
                                          && s'.lanes[p].conn.id == s.lanes[p].conn.id
    ensures Accounts(s')
  {
    forall p, id | PendingAt(s', p, id) ensures !Replied(s', id) {
      assert PendingAt(s, p, id);
    }
    forall id | 0 <= id < s'.connects ensures Replied(s', id) || exists p :: PendingAt(s', p, id) {
      assert Replied(s, id) || exists p :: PendingAt(s, p, id);
      if !Replied(s, id) {
        var p :| PendingAt(s, p, id);
        assert PendingAt(s', p, id);
      }
    }
  }

  // ---- events beside the mux task ----------------------------------------------------------

  /** Only lane `p` and its share of the queues move, and of the connection at most the permit. */
  predicate TaskEvent(s: Sys, s': Sys, p: U16) {
    && p in s.lanes && p in s'.lanes
    && s'.lanes == s.lanes[p := s'.lanes[p]]
    && s'.lanes[p].conn == s.lanes[p].conn.(resumePermit := s'.lanes[p].conn.resumePermit)
    && s'.lanes[p].inTable == s.lanes[p].inTable && s'.lanes[p].sent == s.lanes[p].sent
    && s'.writer == s.writer && s'.wire == s.wire && s'.replies == s.replies
    && s'.connects == s.connects && s'.nextPort == s.nextPort && s'.running == s.running
    && (forall q :: q in s.lanes && q != p ==> DataFor(s', q) == DataFor(s, q) && DrainsFor(s', q) == DrainsFor(s, q))
  }

  lemma SameLane(s: Sys, s': Sys, p: U16, q: U16)
    requires TaskEvent(s, s', p) && q in s.lanes && q != p && LaneOk(s, q)
    ensures LaneOk(s', q)
  {
  }

  lemma TaskLane(s: Sys, s': Sys, p: U16)
    requires TaskEvent(s, s', p) && LaneOk(s, p)
    requires Lane.Inv(s'.lanes[p], DataFor(s', p), DrainsFor(s', p), CanSend(s'.writer))
    ensures LaneOk(s', p)
  {
  }

  lemma TaskLanes(s: Sys, s': Sys, p: U16)
    requires (forall q :: q in s.lanes ==> LaneOk(s, q)) && TaskEvent(s, s', p)
    requires Lane.Inv(s'.lanes[p], DataFor(s', p), DrainsFor(s', p), CanSend(s'.writer))
    ensures LaneOk(s', p) && forall q :: q in s'.lanes && q != p ==> LaneOk(s', q)
  {
    TaskLane(s, s', p);
    forall q | q in s'.lanes && q != p ensures LaneOk(s', q) {
      SameLane(s, s', p, q);
    }
  }

  lemma TaskBooks(s: Sys, s': Sys, p: U16)
    requires Accounts(s) && Ids(s) && Halted(s) && TaskEvent(s, s', p)
    ensures Accounts(s') && Ids(s') && Halted(s')
  {
    SameBooks(s, s');
    forall q | InTable(s', q) ensures InTable(s, q) {
    }
  }

  lemma TaskEventKeeps(s: Sys, s': Sys, p: U16)
    requires Inv(s) && TaskEvent(s, s', p) && Queues(s')
    requires Lane.Inv(s'.lanes[p], DataFor(s', p), DrainsFor(s', p), CanSend(s'.writer))
    ensures Inv(s')
  {
    TaskLanes(s, s', p);
    TaskBooks(s, s', p);
    Assemble(s', p);
  }

  function AfterLocal(s: Sys, p: U16, step: Lane.Local): Sys
    requires p in s.lanes && Lane.Enabled(s.lanes[p], step)
  {
    s.(lanes := s.lanes[p := Lane.Do(s.lanes[p], step)])
  }

  lemma LocalIsTaskEvent(s: Sys, p: U16, step: Lane.Local)
    requires p in s.lanes && Lane.Enabled(s.lanes[p], step)
    ensures TaskEvent(s, AfterLocal(s, p, step), p)
  {
  }

  lemma AtKeeps(s: Sys, p: U16, step: Lane.Local)
    requires Inv(s) && p in s.lanes && Lane.Enabled(s.lanes[p], step)
    ensures Inv(AfterLocal(s, p, step))
  {
    assert LaneOk(s, p);
    LaneProofs.LocalStep(s.lanes[p], step, DataFor(s, p), DrainsFor(s, p), CanSend(s.writer));
    LocalIsTaskEvent(s, p, step);
    TaskEventKeeps(s, AfterLocal(s, p, step), p);
  }

  function AfterPumpSend(s: Sys, p: U16): Sys
    requires p in s.lanes && s.lanes[p].pump.Holding?
  {
    s.(lanes := s.lanes[p := Lane.PumpSent(s.lanes[p], s.running)],
       dataQ := if s.running then s.dataQ + [(p, s.lanes[p].pump.msg)] else s.dataQ)
  }

  lemma PumpSendIsTaskEvent(s: Sys, p: U16)
    requires p in s.lanes && s.lanes[p].pump.Holding?
    ensures var s' := AfterPumpSend(s, p);
            && TaskEvent(s, s', p) && DrainsFor(s', p) == DrainsFor(s, p)
            && DataFor(s', p) == DataFor(s, p) + if s.running then [s.lanes[p].pump.msg] else []
  {
    var s' := AfterPumpSend(s, p);
    forall q | q in s.lanes ensures s.running ==>
      DataFor(s', q) == DataFor(s, q) + if q == p then [s.lanes[p].pump.msg] else []
    {
      ProjSnoc(s.dataQ, (p, s.lanes[p].pump.msg), q);
    }
  }

  lemma PumpSendLane(s: Sys, p: U16)
    requires p in s.lanes && LaneOk(s, p) && Halted(s) && s.lanes[p].pump.Holding?
    ensures var s' := AfterPumpSend(s, p);
            Lane.Inv(s'.lanes[p], DataFor(s', p), DrainsFor(s', p), CanSend(s'.writer))
  {
    var l := s.lanes[p];
    PumpSendIsTaskEvent(s, p);
    if s.running {
      LaneProofs.PumpSendStep(l, DataFor(s, p), DrainsFor(s, p), CanSend(s.writer));
    } else {
      assert !InTable(s, p) && DataFor(s, p) + [] == DataFor(s, p);
      LaneProofs.OrphanPumpStep(l, DataFor(s, p), DrainsFor(s, p), CanSend(s.writer));
    }
  }

  lemma PumpSendsKeeps(s: Sys, p: U16)
    requires Inv(s) && p in s.lanes && s.lanes[p].pump.Holding? && (s.running ==> |s.dataQ| < DATA_CAPACITY)
    ensures Inv(AfterPumpSend(s, p))
  {
    PumpSendIsTaskEvent(s, p);
    PumpSendLane(s, p);
    TaskEventKeeps(s, AfterPumpSend(s, p), p);
  }

  function AfterForwarderWrite(s: Sys, p: U16): Sys
    requires p in s.lanes && s.lanes[p].fwd.Writing?
  {
    s.(lanes := s.lanes[p := Lane.ForwarderWrote(s.lanes[p], s.running)],
       drainQ := if s.running then s.drainQ + [(p, |s.lanes[p].fwd.chunk| % 0x1_0000_0000)] else s.drainQ)
  }

  lemma ForwarderWriteIsTaskEvent(s: Sys, p: U16)
    requires p in s.lanes && s.lanes[p].fwd.Writing?
    ensures var s' := AfterForwarderWrite(s, p);
            && TaskEvent(s, s', p) && DataFor(s', p) == DataFor(s, p)
            && DrainsFor(s', p) == DrainsFor(s, p) + if s.running then [|s.lanes[p].fwd.chunk| % 0x1_0000_0000] else []
  {
    var s' := AfterForwarderWrite(s, p);
    var n: U32 := |s.lanes[p].fwd.chunk| % 0x1_0000_0000;
    forall q | q in s.lanes ensures s.running ==> DrainsFor(s', q) == DrainsFor(s, q) + if q == p then [n] else [] {
      ProjSnoc(s.drainQ, (p, n), q);
    }
  }

  lemma ForwarderWriteLane(s: Sys, p: U16)
    requires p in s.lanes && LaneOk(s, p) && Halted(s) && s.lanes[p].fwd.Writing?
    ensures var s' := AfterForwarderWrite(s, p);
            Lane.Inv(s'.lanes[p], DataFor(s', p), DrainsFor(s', p), CanSend(s'.writer))
  {
    var l := s.lanes[p];
    ForwarderWriteIsTaskEvent(s, p);
    if s.running {
      LaneProofs.ForwarderWriteStep(l, DataFor(s, p), DrainsFor(s, p), CanSend(s.writer));
    } else {
      assert !InTable(s, p) && DrainsFor(s, p) + [] == DrainsFor(s, p);
      LaneProofs.OrphanForwarderStep(l, DataFor(s, p), DrainsFor(s, p), CanSend(s.writer));
    }
  }

  lemma ForwarderWritesKeeps(s: Sys, p: U16)
    requires Inv(s) && p in s.lanes && s.lanes[p].fwd.Writing?
    ensures Inv(AfterForwarderWrite(s, p))
  {
    ForwarderWriteIsTaskEvent(s, p);
    ForwarderWriteLane(s, p);
    TaskEventKeeps(s, AfterForwarderWrite(s, p), p);
  }

  // ---- opening and closing ---------------------------------------------------------------

  function AfterTake(s: Sys): Sys
    requires s.dataQ != []
  {
    s.(hand := Some(s.dataQ[0]), dataQ := s.dataQ[1..])
  }

  lemma TakeIsTaskEvent(s: Sys)
    requires Queues(s) && s.hand.None? && s.dataQ != []
    ensures TaskEvent(s, AfterTake(s), s.dataQ[0].0)
    ensures forall q :: DataFor(AfterTake(s), q) == DataFor(s, q)
  {
    assert s.dataQ[0] in s.dataQ;
    forall q ensures DataFor(AfterTake(s), q) == DataFor(s, q) {
      assert [] + Proj(s.dataQ, q) == Proj(s.dataQ, q);
    }
  }

  lemma TakeQueues(s: Sys)
    requires Queues(s) && s.dataQ != []
    ensures Queues(AfterTake(s))
  {
  }

  lemma TakeKeeps(s: Sys)
    requires Inv(s) && s.hand.None? && s.dataQ != []
    ensures Inv(AfterTake(s))
  {
    var s', p := AfterTake(s), s.dataQ[0].0;
    TakeIsTaskEvent(s);
    TakeQueues(s);
    assert LaneOk(s, p) && DrainsFor(s', p) == DrainsFor(s, p);
    TaskEventKeeps(s, s', p);
  }

  lemma {:induction false} ShutDownKeeps(s: Sys, order: seq<U16>)
    requires Inv(s) && s.running
    requires forall p :: InTable(s, p) ==> p in order
    ensures Inv(ShutDownAll(s, order))
    decreases |order|
  {
    if order == [] {
      HaltKeeps(s);
    } else {
      var p := order[0];
      var s1 := if InTable(s, p) then CloseOne(s, p) else s;
      if InTable(s, p) {
        CloseOneKeeps(s, p);
        CloseOneRemoves(s, p);
      }
      forall q | InTable(s1, q) ensures q in order[1..] {
        assert InTable(s, q) && q in order && q != p;
      }
      ShutDownKeeps(s1, order[1..]);
    }
  }

  function CloseOne(s: Sys, p: U16): Sys
    requires InTable(s, p)
  {
    Commit(s, p, Lane.OnShutdown(s.lanes[p], s.writer), ResetAndRemove(s.writer, [], s.lanes[p].conn, ShutDown))
  }

  lemma CloseOneIsLaneEvent(s: Sys, p: U16) returns (o: Outcome)
    requires InTable(s, p)
    ensures o == ResetAndRemove(s.writer, [], s.lanes[p].conn, ShutDown)
    ensures var s' := CloseOne(s, p);
            && LaneEvent(s, s', p, s.writer, o) && s'.lanes[p] == Lane.OnShutdown(s.lanes[p], s.writer)
            && s'.dataQ == s.dataQ && s'.hand == s.hand && s'.drainQ == s.drainQ && s'.lanes.Keys == s.lanes.Keys
  {
    o := ResetAndRemove(s.writer, [], s.lanes[p].conn, ShutDown);
  }

  lemma CloseOneLane(s: Sys, p: U16) returns (o: Outcome)
    requires InTable(s, p) && LaneOk(s, p)
    ensures var s' := CloseOne(s, p);
            && LaneEvent(s, s', p, s.writer, o)
            && Lane.Inv(s'.lanes[p], DataFor(s', p), DrainsFor(s', p), CanSend(s'.writer))
            && s'.dataQ == s.dataQ && s'.hand == s.hand && s'.drainQ == s.drainQ && s'.lanes.Keys == s.lanes.Keys
  {
    o := CloseOneIsLaneEvent(s, p);
    LaneProofs.ShutdownStep(s.lanes[p], s.writer, DataFor(s, p), DrainsFor(s, p));
  }

  lemma CloseOneKeeps(s: Sys, p: U16)
    requires Inv(s) && InTable(s, p)
    ensures Inv(CloseOne(s, p))
  {
    var o := CloseOneLane(s, p);
    var s' := CloseOne(s, p);
    assert Queues(s');
    LaneEventKeeps(s, s', p, o);
  }

  lemma CloseOneRemoves(s: Sys, p: U16)
    requires InTable(s, p)
    ensures CloseOne(s, p).running == s.running
    ensures forall q :: InTable(CloseOne(s, p), q) <==> InTable(s, q) && q != p
  {
  }

  lemma HaltKeeps(s: Sys)
    requires Inv(s) && forall p :: !InTable(s, p)
    ensures Inv(s.(running := false))
  {
    var s' := s.(running := false);
    forall p | p in s'.lanes ensures LaneOk(s', p) {
      assert LaneOk(s, p);
      assert DataFor(s', p) == DataFor(s, p) && DrainsFor(s', p) == DrainsFor(s, p);
    }
    SameBooks(s, s');
    forall p ensures !InTable(s', p) {
      assert !InTable(s, p);
    }
  }

  /** A quiet port has no message under way. */
  lemma QuietPort(s: Sys, p: U16)
    requires Queues(s) && PortQuiet(s, p)
    ensures DataFor(s, p) == [] && DrainsFor(s, p) == [] && !InTable(s, p)
  {
    if p !in s.lanes {
      ProjEmpty(s.dataQ, p);
      ProjEmpty(s.drainQ, p);
    }
  }

  lemma NextPortCycles(n: nat)
    ensures NextPort(1 + n % PORTS) == 1 + (n + 1) % PORTS
  {
  }

  lemma OpenedLane(s: Sys, dport: U16) returns (o: Outcome)
    requires Queues(s) && Ids(s) && PortQuiet(s, s.nextPort) && CanSend(s.writer)
    ensures var s', p := OpenNext(s, dport), s.nextPort;
            && o.conn.id == s.connects && o.conn.sport == p && o.replies == [] && o.conn.reply
            && (CanSend(o.w) ==> CanSend(s.writer))
            && s' == s.(nextPort := 1 + (s.connects + 1) % PORTS, connects := s.connects + 1,
                        lanes := s.lanes[p := s'.lanes[p]], writer := o.w, wire := s.wire + Owned(s.connects, o.segs))
            && s'.lanes[p].inTable && s'.lanes[p].conn == o.conn && s'.lanes[p].sent == o.segs
            && Lane.Inv(s'.lanes[p], DataFor(s', p), DrainsFor(s', p), CanSend(s'.writer))
  {
    o := Opened(s.writer, s.connects, s.nextPort, dport);
    LaneProofs.BornStep(s.writer, s.connects, s.nextPort, dport);
    QuietPort(s, s.nextPort);
    NextPortCycles(s.connects);
    assert s.replies + [] == s.replies;
  }

  /** `s'` is `s` with one more Connect, in the table under the quiet port `p`. */
  predicate OpenEvent(s: Sys, s': Sys, p: U16, o: Outcome) {
    && s' == s.(nextPort := 1 + (s.connects + 1) % PORTS, connects := s.connects + 1, lanes := s'.lanes,
                writer := o.w, wire := s.wire + Owned(s.connects, o.segs))
    && p in s'.lanes && s'.lanes == s.lanes[p := s'.lanes[p]] && !InTable(s, p)
    && o.conn.id == s.connects && o.conn.reply && o.conn.sport == p
    && s'.lanes[p].inTable && s'.lanes[p].conn == o.conn && s'.lanes[p].sent == o.segs
    && p == s.nextPort && s.running
    && (CanSend(o.w) ==> CanSend(s.writer))
  }

  lemma OpenOtherLane(s: Sys, s': Sys, p: U16, o: Outcome, q: U16)
    requires OpenEvent(s, s', p, o) && q in s.lanes && q != p && LaneOk(s, q)
    ensures LaneOk(s', q)
  {
    var id := s.lanes[q].conn.id;
    OwnedByAppend(s.wire, Owned(s.connects, o.segs), id);
    OwnedFrames(o.segs, s.connects, id);
    assert OwnedBy(s.wire, id) + [] == OwnedBy(s.wire, id);
    Lane.InvDies(s.lanes[q], DataFor(s, q), DrainsFor(s, q), CanSend(s.writer), CanSend(s'.writer));
  }

  lemma OpenLane(s: Sys, s': Sys, p: U16, o: Outcome)
    requires OpenEvent(s, s', p, o) && Ids(s)
    requires Lane.Inv(s'.lanes[p], DataFor(s', p), DrainsFor(s', p), CanSend(s'.writer))
    ensures LaneOk(s', p)
    ensures forall i :: 0 <= i < |s'.wire| && s'.wire[i].owner.Some? ==> s'.wire[i].owner.value < s'.connects
  {
    NotYetOnWire(s.wire, s.connects);
    WireGrows(s, s', s.connects, o.segs);
    assert [] + o.segs == o.segs;
  }

  lemma OpenAccounts(s: Sys, s': Sys, p: U16, o: Outcome)
    requires OpenEvent(s, s', p, o) && Accounts(s)
    requires forall q :: q in s.lanes ==> s.lanes[q].conn.id < s.connects
    ensures Accounts(s')
  {
    forall q, id | PendingAt(s', q, id) ensures !Replied(s', id) {
      if q != p {
        assert PendingAt(s, q, id);
      }
    }
    forall id | 0 <= id < s'.connects ensures Replied(s', id) || exists q :: PendingAt(s', q, id) {
      if id == s.connects {
        assert PendingAt(s', p, id);
      } else if !Replied(s, id) {
        var q :| PendingAt(s, q, id);
        assert PendingAt(s', q, id);
      }
    }
  }

  lemma OpenIds(s: Sys, s': Sys, p: U16, o: Outcome)
    requires OpenEvent(s, s', p, o) && Ids(s)
    requires forall q :: q in s.lanes ==> s.lanes[q].conn.id < s.connects
    requires forall i :: 0 <= i < |s'.wire| && s'.wire[i].owner.Some? ==> s'.wire[i].owner.value < s'.connects
    ensures Ids(s')
  {
  }

  lemma OpenLanes(s: Sys, s': Sys, p: U16, o: Outcome)
    requires OpenEvent(s, s', p, o) && (forall q :: q in s.lanes ==> LaneOk(s, q))
    ensures forall q :: q in s'.lanes && q != p ==> LaneOk(s', q)
    ensures forall q :: q in s.lanes ==> s.lanes[q].conn.id < s.connects
  {
    forall q | q in s'.lanes && q != p ensures LaneOk(s', q) {
      OpenOtherLane(s, s', p, o, q);
    }
    forall q | q in s.lanes ensures s.lanes[q].conn.id < s.connects {
      assert LaneOk(s, q);
    }
  }

  lemma OpenEventKeeps(s: Sys, s': Sys, p: U16, o: Outcome)
    requires Inv(s) && OpenEvent(s, s', p, o)
    requires Lane.Inv(s'.lanes[p], DataFor(s', p), DrainsFor(s', p), CanSend(s'.writer))
    ensures Inv(s')
  {
    OpenLane(s, s', p, o);
    OpenLanes(s, s', p, o);
    OpenAccounts(s, s', p, o);
    OpenIds(s, s', p, o);
    Assemble(s', p);
  }

  lemma OpenKeeps(s: Sys, dport: U16)
    requires Inv(s) && s.running && PortQuiet(s, s.nextPort)
    ensures Inv(OpenNext(s, dport))
  {
    if CanSend(s.writer) {
      var o := OpenedLane(s, dport);
      QuietPort(s, s.nextPort);
      OpenEventKeeps(s, OpenNext(s, dport), s.nextPort, o);
    } else {
      NextPortCycles(s.connects);
      RefusedKeeps(s, OpenNext(s, dport));
    }
  }

  /** The SYN could not be sent: the Connect fails at once and no entry is made. */
  lemma RefusedKeeps(s: Sys, s': Sys)
    requires Inv(s) && s.running && !CanSend(s.writer)
    requires s' == s.(nextPort := 1 + (s.connects + 1) % PORTS, connects := s.connects + 1, writer := s'.writer,
                      replies := s.replies + [Answer(s.connects, false)])
    requires !CanSend(s'.writer)
    ensures Inv(s')
  {
    forall q | q in s'.lanes ensures LaneOk(s', q) && s.lanes[q].conn.id < s.connects {
      RefusedLane(s, s', q);
    }
    RefusedAccounts(s, s');
    AssembleAll(s');
  }

  lemma RefusedLane(s: Sys, s': Sys, q: U16)
    requires q in s.lanes && LaneOk(s, q) && !CanSend(s.writer) && !CanSend(s'.writer)
    requires s' == s.(nextPort := s'.nextPort, connects := s.connects + 1, writer := s'.writer, replies := s'.replies)
    ensures LaneOk(s', q) && s.lanes[q].conn.id < s.connects
  {
    assert DataFor(s', q) == DataFor(s, q) && DrainsFor(s', q) == DrainsFor(s, q);
  }

  lemma RefusedAccounts(s: Sys, s': Sys)
    requires Accounts(s) && forall q :: q in s.lanes ==> s.lanes[q].conn.id < s.connects
    requires s' == s.(nextPort := s'.nextPort, connects := s.connects + 1, writer := s'.writer,
                      replies := s.replies + [Answer(s.connects, false)])
    ensures Accounts(s')
  {
    forall q, id | PendingAt(s', q, id) ensures !Replied(s', id) {
      assert PendingAt(s, q, id);
    }
    forall id | 0 <= id < s'.connects ensures Replied(s', id) || exists q :: PendingAt(s', q, id) {
      if id == s.connects {
        assert s'.replies[|s.replies|].id == id;
      } else if Replied(s, id) {
        var i :| 0 <= i < |s.replies| && s.replies[i].id == id;
        assert s'.replies[i].id == id;
      } else {
        var q :| PendingAt(s, q, id);
        assert PendingAt(s', q, id);
      }
    }
  }

  // ---- whole runs --------------------------------------------------------------------------

  lemma NextKeeps(s: Sys, e: Event)
    requires Inv(s) && Can(s, e)
    ensures Inv(Next(s, e))
  {
    match e
    case Connect(dport) => OpenKeeps(s, dport);
    case Take => TakeKeeps(s);
    case Process => ProcessKeeps(s);
    case Drain => DrainKeeps(s);
    case Packet(seg) => PacketKeeps(s, seg);
    case Shutdown(order) => ShutDownKeeps(s, order);
    case At(p, step) => AtKeeps(s, p, step);
    case PumpSends(p) => PumpSendsKeeps(s, p);
    case ForwarderWrites(p) => ForwarderWritesKeeps(s, p);
  }

  lemma InitOk(w: Writer)
    ensures Inv(Init(w))
  {
  }

  lemma {:induction false} RunKeeps(s: Sys, events: seq<Event>)
    requires Inv(s) && IsRun(s, events)
    ensures Inv(Run(s, events))
    decreases |events|
  {
    if events != [] {
      NextKeeps(s, events[0]);
      RunKeeps(Next(s, events[0]), events[1..]);
    }
  }
}
