/** What the frames a connection puts on the wire say: where they go, what they acknowledge, how much
    room they show. Stated in numbers and bits, over every event and every run. */
module Frames {
  import opened Prelude
  import opened Codec
  import opened ConnSpec
  import opened System
  import opened MuxTheorems
  import Lane
  import LaneProofs
  import SystemProofs

  /** The receive space still free: of 131072 bytes, what is not buffered. */
  function Free(buffered: U32): nat {
    if buffered < 131072 then 131072 - buffered else 0
  }

  /** A window field in units of 256 bytes shows all of `free` that it can, and no more. */
  predicate Shows(window: U16, free: nat) {
    window * 256 <= free < window * 256 + 256
  }

  /** A frame of connection `c`, as `c` stands when it sends it. */
  predicate Speaks(c: Conn, s: Seg) {
    s.src == c.sport && s.dst == c.dport && s.ack == c.txAck && Shows(s.window, Free(c.rxBuffered))
  }

  /** An ACK, with or without payload; or a bare RST, the last frame of a connection that goes. */
  predicate Proper(segs: seq<Seg>, i: nat, gone: bool)
    requires i < |segs|
  {
    segs[i].flags == 16 || (segs[i].flags == 4 && segs[i].payload == [] && gone && i == |segs| - 1)
  }

  // ---- the handlers ------------------------------------------------------------------------

  predicate AllSpeak(c: Conn, segs: seq<Seg>) {
    forall s :: s in segs ==> Speaks(c, s)
  }

  /** What one outcome sends. */
  predicate Utters(c: Conn, o: Outcome) {
    && o.conn.sport == c.sport && o.conn.dport == c.dport
    && AllSpeak(o.conn, o.segs)
    && forall i :: 0 <= i < |o.segs| ==> Proper(o.segs, i, o.fate.Gone?)
  }

  lemma SegSpeaks(c: Conn, flags: Byte, payload: Bytes)
    ensures Speaks(c, SegOf(c, flags, payload))
  {
  }

  lemma FlushUtters(w: Writer, c: Conn)
    ensures var r := Flush(w, c);
            && r.conn.sport == c.sport && r.conn.dport == c.dport && r.conn.txAck == c.txAck
            && r.conn.rxBuffered == c.rxBuffered
            && forall s :: s in r.segs ==> Speaks(r.conn, s) && s.flags == 16
  {
    FlushStaysInWindow(w, c);
    FlushFails(w, c);
    forall s | s in Flush(w, c).segs ensures Speaks(c, s) && s.flags == 16 {
      assert InWindow(c, s);
    }
  }

  /** A flush, then perhaps a bare RST. */
  lemma EndUtters(w: Writer, segs: seq<Seg>, c: Conn, why: Why)
    requires forall s :: s in segs ==> Speaks(c, s) && s.flags == 16
    ensures Utters(c, ResetAndRemove(w, segs, c, why))
  {
    var o := ResetAndRemove(w, segs, c, why);
    forall i | 0 <= i < |o.segs| ensures Speaks(o.conn, o.segs[i]) && Proper(o.segs, i, true) {
      assert i < |segs| ==> o.segs[i] in segs;
    }
  }

  lemma MessageUtters(w: Writer, c: Conn, msg: Option<Bytes>)
    ensures Utters(c, ClientMessage(w, c, msg))
  {
    var c1 := Pushed(c, msg);
    var r := Flush(w, c1);
    FlushUtters(w, c1);
    if msg.None? {
      EndUtters(r.w, r.segs, r.conn, SendFailed);
      EndUtters(r.w, r.segs, r.conn, Drained);
    }
  }

  lemma DrainUtters(w: Writer, c: Conn, n: U32)
    ensures Utters(c, DrainReport(w, c, n))
  {
  }

  lemma FlushAndCloseUtters(w: Writer, first: seq<Seg>, c: Conn, deliver: seq<Bytes>)
    requires forall s :: s in first ==> Speaks(c, s) && s.flags == 16
    ensures Utters(c, FlushAndClose(w, first, c, deliver))
  {
    var r := Flush(w, c);
    var o := FlushAndClose(w, first, c, deliver);
    FlushUtters(w, c);
    assert forall s :: s in first + r.segs ==> Speaks(r.conn, s) && s.flags == 16;
    EndUtters(r.w, first + r.segs, r.conn, Drained);
    forall i | 0 <= i < |o.segs| && o.segs == first + r.segs ensures Proper(o.segs, i, o.fate.Gone?) {
      assert o.segs[i] in first + r.segs;
    }
  }

  lemma AckUtters(w: Writer, c: Conn, payload: Bytes, alive: bool)
    ensures Utters(c, AckSegment(w, c, payload, alive))
  {
    var c1 := LaneProofs.Counted(c, payload);
    EndUtters(w, [], c, UserGone);
    FlushAndCloseUtters(w, [], c, []);
    FlushAndCloseUtters(SendWriter(w, []), [SegOf(c1, ACK, [])], c1, [payload]);
  }

  lemma SegmentUtters(w: Writer, c: Conn, seg: Seg, alive: bool)
    requires !c.state.Dead?
    ensures Utters(c, Segment(w, c, seg, alive))
  {
    var c0 := LaneProofs.Heard(c, seg);
    LaneProofs.SegmentCases(w, c, seg, alive);
    AckUtters(w, c0, seg.payload, alive);
  }

  // ---- what is acknowledged ----------------------------------------------------------------

  /** Everything taken from the device so far, and the SYN. */
  predicate Caught(l: Lane.Lane) {
    l.conn.txAck == (1 + |l.inbound|) % 0x1_0000_0000
  }

  lemma QuietAck(l: Lane.Lane, l1: Lane.Lane, o: Outcome)
    requires Caught(l) && l1.inbound == l.inbound && o.deliver == [] && o.conn.txAck == l.conn.txAck
    ensures Caught(Lane.Record(l1, o))
  {
    assert l.inbound + [] == l.inbound;
  }

  lemma MessageAck(w: Writer, c: Conn, msg: Option<Bytes>)
    ensures var o := ClientMessage(w, c, msg);
            o.deliver == [] && o.conn.txAck == c.txAck && o.conn.rxBuffered == c.rxBuffered
  {
    FlushUtters(w, Pushed(c, msg));
  }

  lemma AckCounts(w: Writer, c: Conn, payload: Bytes, alive: bool)
    ensures var o := AckSegment(w, c, payload, alive);
            && (o.deliver == [] ==> o.conn.txAck == c.txAck && o.conn.rxBuffered == c.rxBuffered)
            && (o.deliver != [] ==> o.deliver == [payload] && o.conn.txAck == LaneProofs.Counted(c, payload).txAck)
  {
    FlushUtters(w, c);
    FlushUtters(SendWriter(w, []), LaneProofs.Counted(c, payload));
  }

  lemma DeliveredAck(l: Lane.Lane, l1: Lane.Lane, o: Outcome, payload: Bytes)
    requires Caught(l) && l1.inbound == l.inbound
    requires o.deliver == [payload] && o.conn.txAck == Add32(l.conn.txAck, |payload| % 0x1_0000_0000)
    ensures Caught(Lane.Record(l1, o))
  {
    LaneProofs.DeliveryGrows(l1, o, payload);
    LaneProofs.CountedAck(|l.inbound|, payload);
  }

  lemma SegmentCounts(w: Writer, c: Conn, seg: Seg, alive: bool)
    requires c.state.Connected?
    ensures var o := Segment(w, c, seg, alive);
            && (o.deliver == [] ==> o.conn.txAck == c.txAck)
            && (o.deliver != [] ==>
                  o.deliver == [seg.payload] && o.conn.txAck == Add32(c.txAck, |seg.payload| % 0x1_0000_0000))
  {
    LaneProofs.SegmentCases(w, c, seg, alive);
    AckCounts(w, LaneProofs.Heard(c, seg), seg.payload, alive);
  }

  lemma SegmentAck(l: Lane.Lane, w: Writer, seg: Seg)
    requires Lane.Linked(l) && Caught(l)
    ensures Caught(Lane.OnSegment(l, w, seg))
  {
    var o := Segment(w, l.conn, seg, Lane.FwdAlive(l));
    SegmentCounts(w, l.conn, seg, Lane.FwdAlive(l));
    if o.deliver == [] {
      QuietAck(l, Lane.Judge(l, seg), o);
    } else {
      DeliveredAck(l, Lane.Judge(l, seg), o, seg.payload);
    }
  }

  // ---- one connection's lane ---------------------------------------------------------------

  /** Frame `i` of those lane `l2` has sent, sent since `l`. */
  predicate TrueFrame(l2: Lane.Lane, i: nat)
    requires i < |l2.sent|
  {
    Speaks(l2.conn, l2.sent[i]) && Proper(l2.sent, i, !l2.inTable)
  }

  predicate Tells(l: Lane.Lane, l2: Lane.Lane) {
    && l.sent <= l2.sent && l2.conn.sport == l.conn.sport && l2.conn.dport == l.conn.dport
    && (forall i :: |l.sent| <= i < |l2.sent| ==> TrueFrame(l2, i))
    && (Lane.Linked(l) && Caught(l) ==> Caught(l2))
  }

  lemma RecordTells(l: Lane.Lane, l1: Lane.Lane, o: Outcome)
    requires l1.sent == l.sent && Utters(l.conn, o)
    requires Lane.Linked(l) && Caught(l) ==> Caught(Lane.Record(l1, o))
    ensures Tells(l, Lane.Record(l1, o))
  {
    var l2 := Lane.Record(l1, o);
    forall i | |l.sent| <= i < |l2.sent| ensures TrueFrame(l2, i) {
      assert l2.sent[i] == o.segs[i - |l.sent|] && o.segs[i - |l.sent|] in o.segs;
      assert Proper(o.segs, i - |l.sent|, o.fate.Gone?);
    }
  }

  lemma MessageTells(l: Lane.Lane, w: Writer, msg: Option<Bytes>)
    requires l.inTable
    ensures Tells(l, Lane.OnMessage(l, w, msg))
  {
    var l1 := if l.conn.state.Connected? && msg.Some? then l.(accepted := l.accepted + msg.value) else l;
    MessageUtters(w, l.conn, msg);
    MessageAck(w, l.conn, msg);
    if Caught(l) {
      QuietAck(l, l1, ClientMessage(w, l.conn, msg));
    }
    RecordTells(l, l1, ClientMessage(w, l.conn, msg));
  }

  lemma DrainTells(l: Lane.Lane, w: Writer, n: U32)
    requires l.inTable
    ensures Tells(l, Lane.OnDrain(l, w, n))
  {
    DrainUtters(w, l.conn, n);
    if Caught(l) {
      QuietAck(l, l, DrainReport(w, l.conn, n));
    }
    RecordTells(l, l, DrainReport(w, l.conn, n));
  }

  lemma SegmentTells(l: Lane.Lane, w: Writer, seg: Seg)
    requires l.inTable && !l.conn.state.Dead?
    ensures Tells(l, Lane.OnSegment(l, w, seg))
  {
    SegmentUtters(w, l.conn, seg, Lane.FwdAlive(l));
    if Lane.Linked(l) && Caught(l) {
      SegmentAck(l, w, seg);
    }
    RecordTells(l, Lane.Judge(l, seg), Segment(w, l.conn, seg, Lane.FwdAlive(l)));
  }

  lemma ShutdownTells(l: Lane.Lane, w: Writer)
    requires l.inTable
    ensures Tells(l, Lane.OnShutdown(l, w))
  {
    EndUtters(w, [], l.conn, ShutDown);
    if Caught(l) {
      QuietAck(l, l, ResetAndRemove(w, [], l.conn, ShutDown));
    }
    RecordTells(l, l, ResetAndRemove(w, [], l.conn, ShutDown));
  }

  lemma LocalTells(l: Lane.Lane, step: Lane.Local)
    requires Lane.Enabled(l, step)
    ensures Lane.Do(l, step).sent == l.sent && Lane.Do(l, step).inbound == l.inbound
    ensures Lane.Do(l, step).conn == l.conn.(resumePermit := Lane.Do(l, step).conn.resumePermit)
  {
    match step {
      case PumpWakes =>
      case _ => assert Lane.Do(l, step).conn == l.conn;
    }
  }

  // ---- the whole mux -----------------------------------------------------------------------

  lemma {:induction false} ShutDownTells(s: Sys, order: seq<U16>, p: U16)
    requires p in s.lanes && (forall i, j :: 0 <= i < j < |order| ==> order[i] != order[j])
    requires p in order ==> InTable(s, p)
    ensures var s' := ShutDownAll(s, order);
            p in s'.lanes && Tells(s.lanes[p], s'.lanes[p]) && s'.lanes[p].conn.id == s.lanes[p].conn.id
    ensures p !in order ==> ShutDownAll(s, order).lanes[p] == s.lanes[p]
    decreases |order|
  {
    if order != [] {
      var q, rest := order[0], order[1..];
      var s1 := if InTable(s, q) then SystemProofs.CloseOne(s, q) else s;
      assert forall i, j :: 0 <= i < j < |rest| ==> rest[i] != rest[j];
      if q == p {
        assert p !in rest;
        ShutDownTells(s1, rest, p);
        ShutdownTells(s.lanes[p], s.writer);
      } else {
        ShutDownTells(s1, rest, p);
      }
    }
  }

  lemma DrainEventTells(s: Sys, p: U16)
    requires s.drainQ != [] && p in s.lanes
    ensures p in ProcessDrain(s).lanes && Tells(s.lanes[p], ProcessDrain(s).lanes[p])
    ensures ProcessDrain(s).lanes[p].conn.id == s.lanes[p].conn.id
  {
    if s.drainQ[0].0 == p && InTable(s, p) {
      DrainTells(s.lanes[p], s.writer, s.drainQ[0].1);
    }
  }

  lemma AsideTells(s: Sys, e: Event, p: U16)
    requires Can(s, e) && p in s.lanes && !(e.Connect? && s.nextPort == p)
    requires e.Connect? || e.Take? || e.At? || e.PumpSends? || e.ForwarderWrites?
    ensures p in Next(s, e).lanes && Tells(s.lanes[p], Next(s, e).lanes[p])
    ensures Next(s, e).lanes[p].conn.id == s.lanes[p].conn.id
  {
    if e.At? {
      LocalTells(s.lanes[e.port], e.step);
    }
  }

  /** Every event other than the Connect that opens it: what lane `p` sends, it says truly. */
  lemma EventTells(s: Sys, e: Event, p: U16)
    requires Inv(s) && Can(s, e) && p in s.lanes && !(e.Connect? && s.nextPort == p)
    ensures p in Next(s, e).lanes && Tells(s.lanes[p], Next(s, e).lanes[p])
    ensures Next(s, e).lanes[p].conn.id == s.lanes[p].conn.id
  {
    match e
    case Process => ProcessTells(s, p);
    case Drain => DrainEventTells(s, p);
    case Packet(seg) =>
      assert LaneOk(s, p);
      PacketTells(s, seg, p);
    case Shutdown(order) => ShutDownTells(s, order, p);
    case _ => AsideTells(s, e, p);
  }

  lemma ProcessTells(s: Sys, p: U16)
    requires s.hand.Some? && p in s.lanes
    ensures p in ProcessMessage(s).lanes && Tells(s.lanes[p], ProcessMessage(s).lanes[p])
    ensures ProcessMessage(s).lanes[p].conn.id == s.lanes[p].conn.id
  {
    if s.hand.value.0 == p && InTable(s, p) {
      MessageTells(s.lanes[p], s.writer, s.hand.value.1);
      SystemProofs.MessageResolves(s.writer, s.lanes[p].conn, s.hand.value.1);
    }
  }

  lemma PacketTells(s: Sys, seg: Seg, p: U16)
    requires p in s.lanes && (InTable(s, p) ==> !s.lanes[p].conn.state.Dead?)
    ensures p in ProcessPacket(s, seg).lanes && Tells(s.lanes[p], ProcessPacket(s, seg).lanes[p])
    ensures ProcessPacket(s, seg).lanes[p].conn.id == s.lanes[p].conn.id
  {
    if seg.dst == p && InTable(s, p) {
      SegmentTells(s.lanes[p], s.writer, seg);
      SystemProofs.SegmentResolves(s.writer, s.lanes[p].conn, seg, Lane.FwdAlive(s.lanes[p]));
    }
  }

  lemma LaneTells(l: Lane.Lane, l2: Lane.Lane, i: nat)
    requires Tells(l, l2) && |l.sent| <= i < |l2.sent|
    ensures var f, c := l2.sent[i], l2.conn;
            && f.src == l.conn.sport && f.dst == l.conn.dport && f.ack == c.txAck
            && (Lane.Linked(l) && Caught(l) ==> f.ack == (1 + |l2.inbound|) % 0x1_0000_0000)
            && f.window * 256 <= Free(c.rxBuffered) < f.window * 256 + 256
            && (f.flags == 16 || (f.flags == 4 && f.payload == [] && i == |l2.sent| - 1 && !l2.inTable))
  {
    assert TrueFrame(l2, i);
  }

  lemma EventLane(s: Sys, e: Event, p: U16)
    requires Reachable(s) && Can(s, e) && p in s.lanes && !(e.Connect? && s.nextPort == p)
    ensures var s' := Next(s, e);
            && p in s'.lanes && Tells(s.lanes[p], s'.lanes[p]) && s'.lanes[p].conn.id == s.lanes[p].conn.id
            && OwnedBy(s.wire, s.lanes[p].conn.id) == s.lanes[p].sent && s.lanes[p].conn.sport == p
            && OwnedBy(s'.wire, s.lanes[p].conn.id) == s'.lanes[p].sent
            && (CanSend(s.writer) && Lane.Linked(s.lanes[p]) ==> Caught(s.lanes[p]))
  {
    ReachableInv(s);
    EventTells(s, e, p);
    ReachableLane(s, p);
    InboundIntegrity(s, p);
    AfterEvent(s, e, p);
  }

  lemma AfterEvent(s: Sys, e: Event, p: U16)
    requires Inv(s) && Can(s, e) && p in Next(s, e).lanes
    ensures OwnedBy(Next(s, e).wire, Next(s, e).lanes[p].conn.id) == Next(s, e).lanes[p].sent
  {
    SystemProofs.NextKeeps(s, e);
    assert LaneOk(Next(s, e), p);
  }

  /** Whatever event sends frames for a connection after its SYN: each bears the connection's ports,
      acknowledges every byte taken from the device, and its window field shows the space free at that
      moment, to the 256 bytes it can show. Its flags are ACK alone, or RST alone on a bare frame after
      which the connection is gone. */
  lemma FramesAreTrue(s: Sys, e: Event, p: U16, i: nat)
    requires Reachable(s) && Can(s, e) && p in s.lanes && !(e.Connect? && s.nextPort == p)
    requires p in Next(s, e).lanes
    requires var id := s.lanes[p].conn.id; |OwnedBy(s.wire, id)| <= i < |OwnedBy(Next(s, e).wire, id)|
    ensures var s', l, l' := Next(s, e), s.lanes[p], Next(s, e).lanes[p];
            var frames := OwnedBy(s'.wire, l.conn.id);
            var f := frames[i];
            && f.src == p && f.dst == l.conn.dport && f.ack == l'.conn.txAck
            && (l.conn.state.Connected? && l.inTable && CanSend(s.writer) ==>
                  f.ack == (1 + |l'.inbound|) % 0x1_0000_0000)
            && f.window * 256 <= Free(l'.conn.rxBuffered) < f.window * 256 + 256
            && (f.flags == 16 || (f.flags == 4 && f.payload == [] && i == |frames| - 1 && !InTable(s', p)))
  {
    EventLane(s, e, p);
    LaneTells(s.lanes[p], Next(s, e).lanes[p], i);
  }

  // ---- where they go -----------------------------------------------------------------------

  /** The ports the Connects of a run ask for, in order. */
  function Asked(events: seq<Event>): seq<U16> {
    if events == [] then [] else (if events[0].Connect? then [events[0].dport] else []) + Asked(events[1..])
  }

  /** Every lane, and every frame on the wire that a connection sent, goes to the port its Connect
      asked for. */
  predicate Directed(s: Sys, asked: seq<U16>) {
    && |asked| == s.connects
    && (forall p :: p in s.lanes ==> s.lanes[p].conn.id < |asked| && s.lanes[p].conn.dport == asked[s.lanes[p].conn.id])
    && (forall i :: 0 <= i < |s.wire| && s.wire[i].owner.Some? ==>
          s.wire[i].owner.value < |asked| && s.wire[i].seg.dst == asked[s.wire[i].owner.value])
  }

  /** Frames that connection `id`, going to `dport`, adds to the wire. */
  predicate Adds(wire: seq<Wire>, wire': seq<Wire>, id: nat, dport: U16) {
    && wire <= wire'
    && forall i :: |wire| <= i < |wire'| ==> wire'[i].owner == Some(id) && wire'[i].seg.dst == dport
  }

  lemma {:induction false} OwnedAdds(wire: seq<Wire>, id: nat, segs: seq<Seg>, dport: U16)
    requires forall s :: s in segs ==> s.dst == dport
    ensures Adds(wire, wire + Owned(id, segs), id, dport)
    decreases |segs|
  {
    if segs != [] {
      var x := Wire(Some(id), segs[0]);
      assert segs[0] in segs;
      OwnedAdds(wire + [x], id, segs[1..], dport);
      assert wire + Owned(id, segs) == wire + [x] + Owned(id, segs[1..]);
    }
  }

  lemma CommitDirected(s: Sys, p: U16, l: Lane.Lane, o: Outcome, asked: seq<U16>)
    requires Directed(s, asked) && p in s.lanes && Utters(s.lanes[p].conn, o)
    requires l.conn == o.conn && o.conn.id == s.lanes[p].conn.id
    ensures Directed(Commit(s, p, l, o), asked)
  {
    OwnedAdds(s.wire, o.conn.id, o.segs, o.conn.dport);
  }

  lemma {:induction false} ShutDownDirected(s: Sys, order: seq<U16>, asked: seq<U16>)
    requires Directed(s, asked)
    ensures Directed(ShutDownAll(s, order), asked)
    decreases |order|
  {
    if order != [] {
      var p := order[0];
      if InTable(s, p) {
        var o := ResetAndRemove(s.writer, [], s.lanes[p].conn, ShutDown);
        EndUtters(s.writer, [], s.lanes[p].conn, ShutDown);
        CommitDirected(s, p, Lane.OnShutdown(s.lanes[p], s.writer), o, asked);
        ShutDownDirected(SystemProofs.CloseOne(s, p), order[1..], asked);
      } else {
        ShutDownDirected(s, order[1..], asked);
      }
    }
  }

  lemma ProcessDirected(s: Sys, asked: seq<U16>)
    requires Directed(s, asked) && s.hand.Some?
    ensures Directed(ProcessMessage(s), asked)
  {
    var (p, msg) := s.hand.value;
    if InTable(s, p) {
      MessageUtters(s.writer, s.lanes[p].conn, msg);
      SystemProofs.MessageResolves(s.writer, s.lanes[p].conn, msg);
      CommitDirected(s.(hand := None), p, Lane.OnMessage(s.lanes[p], s.writer, msg),
                     ClientMessage(s.writer, s.lanes[p].conn, msg), asked);
    }
  }

  lemma DrainDirected(s: Sys, asked: seq<U16>)
    requires Directed(s, asked) && s.drainQ != []
    ensures Directed(ProcessDrain(s), asked)
  {
    var (p, n) := s.drainQ[0];
    if InTable(s, p) {
      DrainUtters(s.writer, s.lanes[p].conn, n);
      CommitDirected(s.(drainQ := s.drainQ[1..]), p, Lane.OnDrain(s.lanes[p], s.writer, n),
                     DrainReport(s.writer, s.lanes[p].conn, n), asked);
    }
  }

  lemma PacketDirected(s: Sys, seg: Seg, asked: seq<U16>)
    requires Inv(s) && Directed(s, asked)
    ensures Directed(ProcessPacket(s, seg), asked)
  {
    var p := seg.dst;
    if InTable(s, p) {
      var l := s.lanes[p];
      assert LaneOk(s, p);
      SegmentUtters(s.writer, l.conn, seg, Lane.FwdAlive(l));
      SystemProofs.SegmentResolves(s.writer, l.conn, seg, Lane.FwdAlive(l));
      CommitDirected(s, p, Lane.OnSegment(l, s.writer, seg), Segment(s.writer, l.conn, seg, Lane.FwdAlive(l)), asked);
    }
  }

  lemma OpenDirected(s: Sys, dport: U16, asked: seq<U16>)
    requires Directed(s, asked)
    ensures Directed(OpenNext(s, dport), asked + [dport])
  {
    var o := Opened(s.writer, s.connects, s.nextPort, dport);
    OwnedAdds(s.wire, s.connects, o.segs, dport);
  }

  lemma LocalDirected(s: Sys, p: U16, step: Lane.Local, asked: seq<U16>)
    requires Directed(s, asked) && Can(s, At(p, step))
    ensures Directed(Next(s, At(p, step)), asked)
  {
    LocalTells(s.lanes[p], step);
  }

  lemma AsideDirected(s: Sys, e: Event, asked: seq<U16>)
    requires Can(s, e) && Directed(s, asked) && (e.Take? || e.PumpSends? || e.ForwarderWrites?)
    ensures Directed(Next(s, e), asked)
  {
  }

  lemma NextDirected(s: Sys, e: Event, asked: seq<U16>)
    requires Inv(s) && Can(s, e) && Directed(s, asked)
    ensures Directed(Next(s, e), asked + if e.Connect? then [e.dport] else [])
  {
    if e.Connect? {
      OpenDirected(s, e.dport, asked);
    } else {
      OtherDirected(s, e, asked);
      assert asked + [] == asked;
    }
  }

  lemma OtherDirected(s: Sys, e: Event, asked: seq<U16>)
    requires Inv(s) && Can(s, e) && Directed(s, asked) && !e.Connect?
    ensures Directed(Next(s, e), asked)
  {
    match e
    case Process => ProcessDirected(s, asked);
    case Drain => DrainDirected(s, asked);
    case Packet(seg) => PacketDirected(s, seg, asked);
    case Shutdown(order) => ShutDownDirected(s, order, asked);
    case At(p, step) => LocalDirected(s, p, step, asked);
    case _ => AsideDirected(s, e, asked);
  }

  lemma Regroup(a: seq<U16>, b: seq<U16>, c: seq<U16>)
    ensures a + b + c == a + (b + c)
  {
  }

  lemma {:induction false} RunDirected(s: Sys, events: seq<Event>, asked: seq<U16>)
    requires Inv(s) && IsRun(s, events) && Directed(s, asked)
    ensures Directed(Run(s, events), asked + Asked(events))
    decreases |events|
  {
    if events == [] {
      assert asked + [] == asked;
    } else {
      var e := events[0];
      NextDirected(s, e, asked);
      SystemProofs.NextKeeps(s, e);
      Regroup(asked, if e.Connect? then [e.dport] else [], Asked(events[1..]));
      RunDirected(Next(s, e), events[1..], asked + if e.Connect? then [e.dport] else []);
    }
  }

  /** In every run each frame of the `n`-th Connect's connection goes to the port that Connect asked
      for, and the ports asked for are as many as the Connects processed. */
  lemma FramesGoWhereAsked(w: Writer, events: seq<Event>, i: nat)
    requires IsRun(Init(w), events) && i < |Run(Init(w), events).wire|
    ensures |Asked(events)| == Run(Init(w), events).connects
    ensures var x := Run(Init(w), events).wire[i];
            x.owner.Some? ==> x.owner.value < |Asked(events)| && x.seg.dst == Asked(events)[x.owner.value]
  {
    SystemProofs.InitOk(w);
    RunDirected(Init(w), events, []);
    assert [] + Asked(events) == Asked(events);
  }
}
