/** From the device's writes to a client's reads: the completed transfers, the reader's frames, the mux
    task's theorems and the delivery channel put together. */
module FromDevice {
  import opened Prelude
  import opened Codec
  import opened ConnSpec
  import opened System
  import BulkSpec
  import EndToEnd
  import Lane
  import LaneProofs
  import MuxTheorems
  import SystemProofs

  /** The bytes the device has sent to source port `p`. */
  function DataTo(segs: seq<Seg>, p: U16): Bytes {
    if segs == [] then [] else (if segs[0].dst == p then segs[0].payload else []) + DataTo(segs[1..], p)
  }

  lemma {:induction false} DataToAppend(a: seq<Seg>, b: seq<Seg>, p: U16)
    ensures DataTo(a + b, p) == DataTo(a, p) + DataTo(b, p)
  {
    if a == [] {
      assert a + b == b;
    } else {
      assert (a + b)[1..] == a[1..] + b;
      DataToAppend(a[1..], b, p);
    }
  }

  // ---- which segments reach a client -------------------------------------------------------

  predicate Accepts(s: Seg, p: U16) {
    s.dst == p && s.flags == SYN + ACK
  }

  /** What lane `p` has been delivered is the payload for it in the packets `segs[i..j]`: those after
      the device accepted the connection, and, while it is established, all of them. */
  predicate SpanAt(l: Lane.Lane, p: U16, segs: seq<Seg>, i: nat, j: nat) {
    && i <= j <= |segs| && l.inbound == DataTo(segs[i..j], p)
    && (Lane.Linked(l) ==> j == |segs|)
    && (!l.pump.PumpOff? ==> 0 < i && Accepts(segs[i - 1], p))
    && (l.pump.PumpOff? ==> l.inbound == [])
  }

  ghost predicate Spans(s: Sys, p: U16, segs: seq<Seg>) {
    p in s.lanes ==> exists i, j :: SpanAt(s.lanes[p], p, segs, i, j)
  }

  lemma SpanHolds(s: Sys, p: U16, segs: seq<Seg>, i: nat, j: nat)
    requires p in s.lanes && SpanAt(s.lanes[p], p, segs, i, j)
    ensures Spans(s, p, segs)
  {
  }

  /** A packet that does not reach the lane. */
  lemma SpanPasses(l: Lane.Lane, p: U16, segs: seq<Seg>, i: nat, j: nat, seg: Seg) returns (j': nat)
    requires SpanAt(l, p, segs, i, j) && (Lane.Linked(l) ==> seg.dst != p)
    ensures SpanAt(l, p, segs + [seg], i, j')
  {
    j' := if Lane.Linked(l) then j + 1 else j;
    assert (segs + [seg])[i..j] == segs[i..j];
    if Lane.Linked(l) {
      assert (segs + [seg])[i..j + 1] == segs[i..j] + [seg];
      DataToAppend(segs[i..j], [seg], p);
    }
  }

  /** What a segment delivers to an established connection: its payload, unless that is empty or the
      connection goes. */
  lemma SegmentDelivers(w: Writer, c: Conn, seg: Seg, alive: bool)
    requires c.state.Connected?
    ensures var o := Segment(w, c, seg, alive);
            || (o.deliver == [seg.payload] && seg.payload != [])
            || (o.deliver == [] && (o.fate.Gone? || seg.payload == []))
  {
  }

  lemma SegmentStays(w: Writer, c: Conn, seg: Seg, alive: bool)
    requires !c.state.Dead?
    ensures var o := Segment(w, c, seg, alive);
            && (o.fate.Stay? && c.state.Connected? ==> o.conn.state.Connected?)
            && (o.fate.Gone? ==> o.conn.state.Dead?)
            && (!c.state.Connected? ==> o.deliver == [] && (o.conn.state.Connected? ==> seg.flags == SYN + ACK))
  {
    var c0 := LaneProofs.Heard(c, seg);
    LaneProofs.SegmentCases(w, c, seg, alive);
    if c.state.Connected? && seg.payload == [] {
      LaneProofs.FlushAndCloseKeeps(w, c0);
    } else if c.state.Connected? && alive && c.rxTx {
      LaneProofs.AckKeeps(w, c0, seg.payload);
    }
  }

  lemma DeliveredBytes(l: Lane.Lane, o: Outcome, payload: Bytes)
    requires o.deliver == [payload] || (o.deliver == [] && payload == [])
    ensures Lane.Record(l, o).inbound == l.inbound + payload
  {
    if o.deliver == [] {
      assert l.inbound + [] == l.inbound;
    } else {
      LaneProofs.DeliveryGrows(l, o, payload);
    }
  }

  /** The span takes in `seg`, or ends before it. */
  lemma SpanStep(l: Lane.Lane, l2: Lane.Lane, p: U16, segs: seq<Seg>, i: nat, j: nat, seg: Seg) returns (j': nat)
    requires SpanAt(l, p, segs, i, j) && j == |segs| && seg.dst == p && !l.pump.PumpOff? && l2.pump == l.pump
    requires l2.inbound == l.inbound + seg.payload || (l2.inbound == l.inbound && !Lane.Linked(l2))
    ensures SpanAt(l2, p, segs + [seg], i, j')
  {
    var all := segs + [seg];
    if l2.inbound == l.inbound + seg.payload {
      j' := j + 1;
      assert all[i..j + 1] == segs[i..j] + [seg];
      DataToAppend(segs[i..j], [seg], p);
      assert DataTo([seg], p) == seg.payload + [];
    } else {
      j' := j;
      assert all[i..j] == segs[i..j];
    }
  }

  lemma SpanGrows(l: Lane.Lane, w: Writer, p: U16, segs: seq<Seg>, i: nat, j: nat, seg: Seg) returns (j': nat)
    requires SpanAt(l, p, segs, i, j) && Lane.Linked(l) && !l.pump.PumpOff? && seg.dst == p
    ensures SpanAt(Lane.OnSegment(l, w, seg), p, segs + [seg], i, j')
  {
    var o := Segment(w, l.conn, seg, Lane.FwdAlive(l));
    SegmentDelivers(w, l.conn, seg, Lane.FwdAlive(l));
    DeliveredBytes(Lane.Judge(l, seg), o, if o.deliver == [] then [] else seg.payload);
    assert l.inbound + [] == l.inbound;
    j' := SpanStep(l, Lane.OnSegment(l, w, seg), p, segs, i, j, seg);
  }

  /** The device accepts the connection, or does not. */
  lemma SpanStarts(l: Lane.Lane, w: Writer, p: U16, segs: seq<Seg>, seg: Seg) returns (i: nat)
    requires l.inTable && l.conn.state.Connecting? && l.pump.PumpOff? && l.inbound == [] && seg.dst == p
    ensures SpanAt(Lane.OnSegment(l, w, seg), p, segs + [seg], i, i)
  {
    i := |segs| + 1;
    SegmentStays(w, l.conn, seg, Lane.FwdAlive(l));
    DeliveredBytes(Lane.Judge(l, seg), Segment(w, l.conn, seg, Lane.FwdAlive(l)), []);
    assert (segs + [seg])[i..i] == [];
  }

  lemma PacketSpans(s: Sys, seg: Seg, p: U16, segs: seq<Seg>)
    requires Inv(s) && Spans(s, p, segs)
    ensures Spans(ProcessPacket(s, seg), p, segs + [seg])
  {
    var s' := ProcessPacket(s, seg);
    if p in s.lanes {
      var l := s.lanes[p];
      var i, j :| SpanAt(l, p, segs, i, j);
      assert LaneOk(s, p);
      if seg.dst != p || !l.inTable {
        var j' := SpanPasses(l, p, segs, i, j, seg);
        SpanHolds(s', p, segs + [seg], i, j');
      } else if l.conn.state.Connected? {
        var j' := SpanGrows(l, s.writer, p, segs, i, j, seg);
        SpanHolds(s', p, segs + [seg], i, j');
      } else {
        var i' := SpanStarts(l, s.writer, p, segs, seg);
        SpanHolds(s', p, segs + [seg], i', i');
      }
    }
  }

  /** Neither delivers nor establishes. */
  predicate Quiet(l: Lane.Lane, l2: Lane.Lane) {
    && l2.inbound == l.inbound && (Lane.Linked(l2) ==> Lane.Linked(l)) && (l2.pump.PumpOff? <==> l.pump.PumpOff?)
  }

  lemma QuietSpans(s: Sys, s': Sys, p: U16, segs: seq<Seg>)
    requires Spans(s, p, segs) && p in s.lanes && p in s'.lanes && Quiet(s.lanes[p], s'.lanes[p])
    ensures Spans(s', p, segs)
  {
    var i, j :| SpanAt(s.lanes[p], p, segs, i, j);
    SpanHolds(s', p, segs, i, j);
  }

  lemma OutcomeQuiet(l: Lane.Lane, l1: Lane.Lane, o: Outcome)
    requires o.deliver == [] && (o.conn.state.Connected? ==> l.conn.state.Connected?)
    requires l.inTable && l1.inbound == l.inbound && l1.pump == l.pump && l1.conn == l.conn
    ensures Quiet(l, Lane.Record(l1, o))
  {
    assert l.inbound + [] == l.inbound;
  }

  lemma MessageQuiet(l: Lane.Lane, w: Writer, msg: Option<Bytes>)
    requires l.inTable
    ensures Quiet(l, Lane.OnMessage(l, w, msg))
  {
    var l1 := if l.conn.state.Connected? && msg.Some? then l.(accepted := l.accepted + msg.value) else l;
    OutcomeQuiet(l, l1, ClientMessage(w, l.conn, msg));
  }

  lemma DrainQuiet(l: Lane.Lane, w: Writer, n: U32)
    requires l.inTable
    ensures Quiet(l, Lane.OnDrain(l, w, n))
  {
    OutcomeQuiet(l, l, DrainReport(w, l.conn, n));
  }

  lemma {:induction false} ShutDownQuiet(s: Sys, order: seq<U16>, p: U16)
    requires p in s.lanes
    ensures p in ShutDownAll(s, order).lanes && Quiet(s.lanes[p], ShutDownAll(s, order).lanes[p])
    decreases |order|
  {
    if order != [] {
      var q := order[0];
      var s1 := if InTable(s, q) then SystemProofs.CloseOne(s, q) else s;
      if InTable(s, q) {
        OutcomeQuiet(s.lanes[q], s.lanes[q], ResetAndRemove(s.writer, [], s.lanes[q].conn, ShutDown));
      }
      ShutDownQuiet(s1, order[1..], p);
    }
  }

  lemma LocalQuiet(l: Lane.Lane, step: Lane.Local)
    requires Lane.Enabled(l, step)
    ensures Quiet(l, Lane.Do(l, step))
  {
  }

  lemma EventQuiet(s: Sys, e: Event, p: U16)
    requires Can(s, e) && p in s.lanes && !e.Packet? && (e.Connect? ==> Next(s, e).lanes == s.lanes || s.nextPort != p)
    ensures p in Next(s, e).lanes && Quiet(s.lanes[p], Next(s, e).lanes[p])
  {
    match e
    case Process =>
      if InTable(s, s.hand.value.0) {
        MessageQuiet(s.lanes[s.hand.value.0], s.writer, s.hand.value.1);
      }
    case Drain =>
      if InTable(s, s.drainQ[0].0) {
        DrainQuiet(s.lanes[s.drainQ[0].0], s.writer, s.drainQ[0].1);
      }
    case Shutdown(order) => ShutDownQuiet(s, order, p);
    case At(q, step) => LocalQuiet(s.lanes[q], step);
    case _ =>
  }

  lemma OpenSpans(s: Sys, dport: U16, p: U16, segs: seq<Seg>)
    requires Spans(s, p, segs)
    ensures Spans(OpenNext(s, dport), p, segs)
  {
    var s' := OpenNext(s, dport);
    var o := Opened(s.writer, s.connects, s.nextPort, dport);
    if o.fate.Stay? && p == s.nextPort {
      assert s'.lanes[p] == Lane.Born(o);
      assert SpanAt(s'.lanes[p], p, segs, 0, 0);
    } else if p in s.lanes {
      QuietSpans(s, s', p, segs);
    }
  }

  /** The packets of a run, as segments. */
  function Packets(events: seq<Event>): seq<Seg> {
    if events == [] then []
    else (if events[0].Packet? then [events[0].seg] else []) + Packets(events[1..])
  }

  lemma NextSpans(s: Sys, e: Event, p: U16, segs: seq<Seg>)
    requires Inv(s) && Can(s, e) && Spans(s, p, segs)
    ensures Spans(Next(s, e), p, segs + if e.Packet? then [e.seg] else [])
  {
    if e.Packet? {
      PacketSpans(s, e.seg, p, segs);
    } else {
      assert segs + [] == segs;
      if e.Connect? {
        OpenSpans(s, e.dport, p, segs);
      } else if p in s.lanes {
        EventQuiet(s, e, p);
        QuietSpans(s, Next(s, e), p, segs);
      } else {
        NoNewLane(s, e, p);
      }
    }
  }

  lemma {:induction false} ShutDownLanes(s: Sys, order: seq<U16>)
    ensures ShutDownAll(s, order).lanes.Keys == s.lanes.Keys
    decreases |order|
  {
    if order != [] {
      ShutDownLanes(if InTable(s, order[0]) then SystemProofs.CloseOne(s, order[0]) else s, order[1..]);
    }
  }

  lemma NoNewLane(s: Sys, e: Event, p: U16)
    requires Can(s, e) && !e.Connect? && p !in s.lanes
    ensures p !in Next(s, e).lanes
  {
    if e.Shutdown? {
      ShutDownLanes(s, e.order);
    }
  }

  lemma {:induction false} RunSpans(s: Sys, events: seq<Event>, p: U16, segs: seq<Seg>)
    requires Inv(s) && IsRun(s, events) && Spans(s, p, segs)
    ensures Spans(Run(s, events), p, segs + Packets(events))
    decreases |events|
  {
    if events == [] {
      assert segs + [] == segs;
    } else {
      var e := events[0];
      var more := if e.Packet? then [e.seg] else [];
      NextSpans(s, e, p, segs);
      SystemProofs.NextKeeps(s, e);
      Regroup(segs, more, Packets(events[1..]));
      RunSpans(Next(s, e), events[1..], p, segs + more);
    }
  }

  lemma Regroup(a: seq<Seg>, b: seq<Seg>, c: seq<Seg>)
    ensures a + b + c == a + (b + c)
  {
  }

  // ---- from the transfers to the packets ---------------------------------------------------

  /** Of the frames a device has written, the reader gets those that have arrived complete. */
  lemma {:induction false} ReadAllPrefix(frames: seq<Bytes>, bytes: Bytes)
    requires (forall f :: f in frames ==> WellFramed(f)) && bytes <= Flatten(frames)
    ensures ReadAll(bytes) <= frames
    ensures bytes == Flatten(frames) ==> ReadAll(bytes) == frames
    decreases |frames|
  {
    if frames != [] {
      var f, rest := frames[0], frames[1..];
      assert WellFramed(f);
      if |f| <= |bytes| {
        var more := bytes[|f|..];
        assert bytes == f + more && more <= Flatten(rest);
        ReadFrameExact(f, more);
        ReadAllPrefix(rest, more);
      } else {
        assert bytes == f[..|bytes|];
        assert V1_HEADER_SIZE <= |bytes| ==> Get32(bytes, 4) == Get32(f, 4);
        assert ReadFrame(bytes).Eof?;
      }
    }
  }

  lemma {:induction false} SegsInPrefix(a: seq<Bytes>, b: seq<Bytes>)
    requires a <= b
    ensures EndToEnd.SegsIn(a) <= EndToEnd.SegsIn(b)
  {
    assert b == a + b[|a|..];
    EndToEnd.SegsInAppend(a, b[|a|..]);
  }

  lemma SpanPrefix(segs: seq<Seg>, all: seq<Seg>, p: U16, i: nat, j: nat)
    requires segs <= all && i <= j <= |segs|
    ensures DataTo(segs[i..j], p) <= DataTo(all[i..], p)
    ensures segs == all && j == |segs| ==> DataTo(segs[i..j], p) == DataTo(all[i..], p)
  {
    assert all[i..] == segs[i..j] + all[j..];
    DataToAppend(segs[i..j], all[j..], p);
    if segs == all && j == |segs| {
      assert segs[i..j] == all[i..];
    }
  }

  /** `i` is where the stream from the device to port `p` starts: the segment before it accepts the
      connection. The client has a prefix of what follows; and while its forwarder lives, what the
      client has, what the forwarder holds and what is queued is such a prefix, all of it once
      everything sent has been handled and while the connection is established. */
  predicate Receives(l: Lane.Lane, p: U16, segs: seq<Seg>, all: seq<Seg>, i: nat) {
    && 0 < i <= |all| && Accepts(all[i - 1], p)
    && l.received <= DataTo(all[i..], p)
    && (Lane.FwdAlive(l) ==>
          var held := l.received + Lane.FwdHand(l.fwd) + Flatten(l.rxQ);
          held <= DataTo(all[i..], p) && (segs == all && Lane.Linked(l) ==> held == DataTo(all[i..], p)))
  }

  /** From the device to the client. The device has written the well-framed packets `frames`; the
      transfers completed so far carry a prefix of their bytes, however cut, and the mux task has
      handled the first `k` frames its reader makes of that. Then what the client on port `p` has
      read is a prefix of the payload the device has sent to `p` since it accepted the connection. */
  lemma ClientReceivesDeviceBytes(w: Writer, events: seq<Event>, p: U16, frames: seq<Bytes>, r: BulkSpec.InState, k: nat)
    requires IsRun(Init(w), events) && p in Run(Init(w), events).lanes
    requires !Run(Init(w), events).lanes[p].pump.PumpOff?
    requires (forall f :: f in frames ==> WellFramed(f)) && BulkSpec.Ready(r) && BulkSpec.Stream(r) <= Flatten(frames)
    requires k <= |ReadAll(BulkSpec.Stream(r))|
    requires Packets(events) == EndToEnd.SegsIn(ReadAll(BulkSpec.Stream(r))[..k])
    ensures exists i :: Receives(Run(Init(w), events).lanes[p], p, Packets(events), EndToEnd.SegsIn(frames), i)
  {
    var s, all, segs := Run(Init(w), events), EndToEnd.SegsIn(frames), Packets(events);
    SystemProofs.InitOk(w);
    RunSpans(Init(w), events, p, []);
    assert [] + segs == segs;
    var i, j :| SpanAt(s.lanes[p], p, segs, i, j);
    ReadAllPrefix(frames, BulkSpec.Stream(r));
    SegsInPrefix(ReadAll(BulkSpec.Stream(r))[..k], frames);
    SpanPrefix(segs, all, p, i, j);
    assert MuxTheorems.Reachable(s);
    MuxTheorems.InboundIntegrity(s, p);
    assert Receives(s.lanes[p], p, segs, all, i);
  }
}
