/** From a client's writes to the device's parse: the mux task's theorems, its frames, and the bulk
    transfers put together. */
module EndToEnd {
  import opened Prelude
  import opened Codec
  import opened ConnSpec
  import opened System
  import BulkIo
  import BulkSpec
  import Lane
  import LaneProofs
  import MuxIo
  import MuxTask
  import MuxTheorems
  import Refinement
  import SystemProofs

  /** The TCP segments among the packets a device has cut off. */
  function SegsIn(packets: seq<Bytes>): seq<Seg> {
    if packets == [] then []
    else
      (match ParsePacket(2, packets[0])
       case Tcp(s) => [s]
       case _ => [])
      + SegsIn(packets[1..])
  }

  /** The bytes the device has received from source port `p`. */
  function DataFrom(segs: seq<Seg>, p: U16): Bytes {
    if segs == [] then []
    else (if segs[0].src == p then segs[0].payload else []) + DataFrom(segs[1..], p)
  }

  // ---- every frame bears its connection's port ---------------------------------------------

  predicate From(segs: seq<Seg>, p: U16) {
    forall s :: s in segs ==> s.src == p
  }

  lemma FlushFrom(w: Writer, c: Conn)
    ensures From(Flush(w, c).segs, c.sport) && Flush(w, c).conn.sport == c.sport
  {
    FlushStaysInWindow(w, c);
    FlushFails(w, c);
    forall s | s in Flush(w, c).segs ensures s.src == c.sport {
      assert InWindow(c, s);
    }
  }

  lemma MessageFrom(w: Writer, c: Conn, msg: Option<Bytes>)
    ensures From(ClientMessage(w, c, msg).segs, c.sport)
  {
    FlushFrom(w, MuxTheorems.Pushed(c, msg));
  }

  lemma FlushAndCloseFrom(w: Writer, segs: seq<Seg>, c: Conn, deliver: seq<Bytes>)
    requires From(segs, c.sport)
    ensures From(FlushAndClose(w, segs, c, deliver).segs, c.sport)
  {
    FlushFrom(w, c);
  }

  lemma SegmentFrom(w: Writer, c: Conn, seg: Seg, alive: bool)
    ensures From(Segment(w, c, seg, alive).segs, c.sport)
  {
    var c0 := LaneProofs.Heard(c, seg);
    var c1 := LaneProofs.Counted(c0, seg.payload);
    FlushAndCloseFrom(w, [], c0, []);
    FlushAndCloseFrom(SendWriter(w, []), [SegOf(c1, ACK, [])], c1, [seg.payload]);
  }

  predicate WireAt(x: Wire) {
    if x.owner.Some? then x.seg.src == 1 + x.owner.value % PORTS else x.seg.payload == []
  }

  predicate Ported(wire: seq<Wire>) {
    forall i :: 0 <= i < |wire| ==> WireAt(wire[i])
  }

  lemma {:induction false} OwnedPorted(id: nat, segs: seq<Seg>)
    requires From(segs, 1 + id % PORTS)
    ensures Ported(Owned(id, segs))
  {
    if segs != [] {
      assert segs[0] in segs;
      OwnedPorted(id, segs[1..]);
    }
  }

  lemma CommitPorted(s: Sys, p: U16, l: Lane.Lane, o: Outcome)
    requires Ported(s.wire) && From(o.segs, p) && p == 1 + l.conn.id % PORTS
    ensures Ported(Commit(s, p, l, o).wire)
  {
    OwnedPorted(l.conn.id, o.segs);
  }

  /** A lane has its own port and the ordinal that goes with it. */
  lemma LanePort(s: Sys, p: U16)
    requires Inv(s) && p in s.lanes
    ensures s.lanes[p].conn.sport == p && p == 1 + s.lanes[p].conn.id % PORTS
  {
    assert LaneOk(s, p);
  }

  lemma {:induction false} ShutDownPorted(s: Sys, order: seq<U16>)
    requires Inv(s) && Ported(s.wire)
    ensures Ported(ShutDownAll(s, order).wire)
    decreases |order|
  {
    if order != [] {
      var p := order[0];
      if InTable(s, p) {
        CloseOnePorted(s, p);
        SystemProofs.CloseOneKeeps(s, p);
        ShutDownPorted(SystemProofs.CloseOne(s, p), order[1..]);
      } else {
        ShutDownPorted(s, order[1..]);
      }
    }
  }

  lemma CloseOnePorted(s: Sys, p: U16)
    requires Inv(s) && Ported(s.wire) && InTable(s, p)
    ensures Ported(SystemProofs.CloseOne(s, p).wire)
  {
    LanePort(s, p);
    var o := ResetAndRemove(s.writer, [], s.lanes[p].conn, ShutDown);
    CommitPorted(s, p, Lane.OnShutdown(s.lanes[p], s.writer), o);
  }

  lemma ProcessPorted(s: Sys)
    requires Inv(s) && Ported(s.wire) && s.hand.Some?
    ensures Ported(ProcessMessage(s).wire)
  {
    var (p, msg) := s.hand.value;
    if InTable(s, p) {
      var c := s.lanes[p].conn;
      LanePort(s, p);
      MessageFrom(s.writer, c, msg);
      SystemProofs.MessageResolves(s.writer, c, msg);
      CommitPorted(s, p, Lane.OnMessage(s.lanes[p], s.writer, msg), ClientMessage(s.writer, c, msg));
    }
  }

  lemma DrainFrom(w: Writer, c: Conn, n: U32)
    ensures From(DrainReport(w, c, n).segs, c.sport)
  {
  }

  lemma DrainPorted(s: Sys)
    requires Inv(s) && Ported(s.wire) && s.drainQ != []
    ensures Ported(ProcessDrain(s).wire)
  {
    var (p, n) := s.drainQ[0];
    if InTable(s, p) {
      var l := s.lanes[p];
      LanePort(s, p);
      DrainFrom(s.writer, l.conn, n);
      SystemProofs.DrainResolves(s.writer, l.conn, n);
      CommitPorted(s, p, Lane.OnDrain(l, s.writer, n), DrainReport(s.writer, l.conn, n));
    }
  }

  lemma PacketPorted(s: Sys, seg: Seg)
    requires Inv(s) && Ported(s.wire)
    ensures Ported(ProcessPacket(s, seg).wire)
  {
    var p := seg.dst;
    if InTable(s, p) {
      var c, alive := s.lanes[p].conn, Lane.FwdAlive(s.lanes[p]);
      LanePort(s, p);
      SegmentFrom(s.writer, c, seg, alive);
      SystemProofs.SegmentResolves(s.writer, c, seg, alive);
      CommitPorted(s, p, Lane.OnSegment(s.lanes[p], s.writer, seg), Segment(s.writer, c, seg, alive));
    }
  }

  lemma OpenPorted(s: Sys, dport: U16)
    requires Ids(s) && Ported(s.wire)
    ensures Ported(OpenNext(s, dport).wire)
  {
    var o := Opened(s.writer, s.connects, s.nextPort, dport);
    if o.fate.Stay? {
      OwnedPorted(s.connects, o.segs);
    }
  }

  lemma NextPorted(s: Sys, e: Event)
    requires Inv(s) && Ported(s.wire) && Can(s, e)
    ensures Ported(Next(s, e).wire)
  {
    match e
    case Connect(dport) => OpenPorted(s, dport);
    case Process => ProcessPorted(s);
    case Drain => DrainPorted(s);
    case Packet(seg) => PacketPorted(s, seg);
    case Shutdown(order) => ShutDownPorted(s, order);
    case _ =>
  }

  lemma {:induction false} RunPorted(s: Sys, events: seq<Event>)
    requires Inv(s) && Ported(s.wire) && IsRun(s, events)
    ensures Ported(Run(s, events).wire)
    decreases |events|
  {
    if events != [] {
      NextPorted(s, events[0]);
      SystemProofs.NextKeeps(s, events[0]);
      RunPorted(Next(s, events[0]), events[1..]);
    }
  }

  lemma ReachablePorted(s: Sys)
    requires MuxTheorems.Reachable(s)
    ensures Ported(s.wire)
  {
    var w, events :| IsRun(Init(w), events) && Run(Init(w), events) == s;
    SystemProofs.InitOk(w);
    RunPorted(Init(w), events);
  }

  /** While no port has been used twice, what comes from a port is what its connection has sent. */
  lemma {:induction false} PortIsOwner(wire: seq<Wire>, id: nat)
    requires Ported(wire) && id < PORTS
    requires forall i :: 0 <= i < |wire| && wire[i].owner.Some? ==> wire[i].owner.value < PORTS
    ensures DataFrom(Refinement.SegsOf(wire), 1 + id) == DataOf(OwnedBy(wire, id))
  {
    if wire != [] {
      var x := wire[0];
      assert WireAt(x);
      PortIsOwner(wire[1..], id);
      assert Refinement.SegsOf(wire)[1..] == Refinement.SegsOf(wire[1..]);
      if x.owner == Some(id) {
        DataOfCons(x.seg, OwnedBy(wire[1..], id));
      } else {
        assert x.seg.src == 1 + id ==> x.seg.payload == [];
        assert OwnedBy(wire, id) == OwnedBy(wire[1..], id);
      }
    }
  }

  // ---- what the device parses --------------------------------------------------------------

  lemma {:induction false} SegsInAppend(a: seq<Bytes>, b: seq<Bytes>)
    ensures SegsIn(a + b) == SegsIn(a) + SegsIn(b)
  {
    if a == [] {
      assert a + b == b;
    } else {
      assert (a + b)[1..] == a[1..] + b;
      SegsInAppend(a[1..], b);
    }
  }

  lemma HandshakeSilent()
    ensures ParsePacket(2, MuxTask.VersionFrame()) == NotTcp(PROTO_VERSION)
    ensures ParsePacket(2, MuxTask.SetupFrame()) == NotTcp(PROTO_SETUP)
  {
    HeaderFields(0, PROTO_VERSION, 20, 0, 0, MuxTask.VERSION_PAYLOAD);
    HeaderFields(2, PROTO_SETUP, 17, 0, 0xFFFF, [0x07]);
    assert MuxTask.VersionFrame() == MuxHeader(0, PROTO_VERSION, 20, 0, 0) + MuxTask.VERSION_PAYLOAD;
    assert MuxTask.SetupFrame() == MuxHeader(2, PROTO_SETUP, 17, 0, 0xFFFF) + [0x07];
  }

  /** Of the first `n` frames the mux task has logged, the device parses the first `n` - 2 segments. */
  lemma {:induction false} ParsesLog(frames: seq<Bytes>, segs: seq<Seg>, n: nat)
    requires MuxTask.Log(frames, segs) && n <= |frames|
    ensures SegsIn(frames[..n]) == segs[..SatSub(n, 2)]
    decreases n
  {
    if n > 0 {
      var f := frames[n - 1];
      ParsesLog(frames, segs, n - 1);
      assert frames[..n] == frames[..n - 1] + [f];
      SegsInAppend(frames[..n - 1], [f]);
      var one := [f];
      assert one[1..] == [];
      if n <= 2 {
        HandshakeSilent();
      } else {
        assert MuxTask.FrameAt(frames, segs, n - 3);
        assert segs[..n - 2] == segs[..n - 3] + [segs[n - 3]];
      }
    }
  }

  lemma {:induction false} SegsOfPrefix(wire: seq<Wire>, k: nat)
    requires k <= |wire|
    ensures |Refinement.SegsOf(wire)| == |wire| && Refinement.SegsOf(wire)[..k] == Refinement.SegsOf(wire[..k])
  {
    var rest := wire[k..];
    assert wire == wire[..k] + rest;
    Refinement.SegsOfAppend(wire[..k], rest);
    SegsOfSize(wire);
    SegsOfSize(wire[..k]);
  }

  lemma {:induction false} SegsOfSize(wire: seq<Wire>)
    ensures |Refinement.SegsOf(wire)| == |wire|
  {
    if wire != [] {
      SegsOfSize(wire[1..]);
    }
  }

  /** The part of the wire the device has parsed carries a prefix of what the connection has sent. */
  lemma PrefixCarries(wire: seq<Wire>, k: nat, id: nat)
    requires Ported(wire) && id < PORTS && k <= |wire|
    requires forall i :: 0 <= i < |wire| && wire[i].owner.Some? ==> wire[i].owner.value < PORTS
    ensures DataFrom(Refinement.SegsOf(wire[..k]), 1 + id) <= DataOf(OwnedBy(wire, id))
    ensures k == |wire| ==> DataFrom(Refinement.SegsOf(wire[..k]), 1 + id) == DataOf(OwnedBy(wire, id))
  {
    PortIsOwner(wire[..k], id);
    assert wire == wire[..k] + wire[k..];
    SystemProofs.OwnedByAppend(wire[..k], wire[k..], id);
    DataOfAppend(OwnedBy(wire[..k], id), OwnedBy(wire[k..], id));
    if k == |wire| {
      assert wire[..k] == wire;
    }
  }

  /** From the client to the device. The mux task has logged `frames` for what is on the wire, and of
      their transfers `ts` have been submitted; no port has been used twice. A device that cuts the
      packets at short and zero-length ones, parses them, and collects what comes from port `p`, has
      a prefix of what the client on `p` wrote; once everything is submitted, and while the entry is
      in the table, that prefix, then what is pending, under way and unread, is all the client wrote. */
  lemma DeviceReceivesClientBytes(s: Sys, p: U16, frames: seq<Bytes>, mps: nat, ts: seq<Bytes>)
    requires MuxTheorems.Reachable(s) && p in s.lanes && !s.lanes[p].pump.PumpOff? && s.connects <= PORTS
    requires 0 < mps && MuxTask.Log(frames, Refinement.SegsOf(s.wire))
    requires ts <= BulkSpec.AllTransfers(mps, BulkIo.DEFAULT_MAX_OUT, frames)
    ensures var l := s.lanes[p];
            var got := DataFrom(SegsIn(BulkSpec.Cut(mps, [], BulkSpec.PacketsOf(mps, ts))), p);
            && got <= l.pumped + l.unread
            && (ts == BulkSpec.AllTransfers(mps, BulkIo.DEFAULT_MAX_OUT, frames) && CanSend(s.writer) && l.inTable ==>
                  got + l.conn.pending + Lane.Payloads(Lane.Pipeline(l, DataFor(s, p))) + l.unread
                  == l.pumped + l.unread)
  {
    DeviceParses(s, frames, mps, ts);
    var k := SatSub(|BulkSpec.Cut(mps, [], BulkSpec.PacketsOf(mps, ts))|, 2);
    ParsedFromClient(s, p, k);
  }

  lemma Unreused(s: Sys, p: U16) returns (id: nat)
    requires MuxTheorems.Reachable(s) && p in s.lanes && s.connects <= PORTS
    ensures id == s.lanes[p].conn.id && id < PORTS && p == 1 + id
    ensures Ported(s.wire)
    ensures forall i :: 0 <= i < |s.wire| && s.wire[i].owner.Some? ==> s.wire[i].owner.value < PORTS
  {
    id := s.lanes[p].conn.id;
    MuxTheorems.ReachableIds(s);
    ReachablePorted(s);
  }

  lemma ParsedFromClient(s: Sys, p: U16, k: nat)
    requires MuxTheorems.Reachable(s) && p in s.lanes && !s.lanes[p].pump.PumpOff? && s.connects <= PORTS
    requires k <= |s.wire|
    ensures var l := s.lanes[p];
            var got := DataFrom(Refinement.SegsOf(s.wire[..k]), p);
            && got <= l.pumped + l.unread
            && (k == |s.wire| && CanSend(s.writer) && l.inTable ==>
                  got + l.conn.pending + Lane.Payloads(Lane.Pipeline(l, DataFor(s, p))) + l.unread
                  == l.pumped + l.unread)
  {
    var id := Unreused(s, p);
    PrefixCarries(s.wire, k, id);
    MuxTheorems.OutboundIntegrity(s, p);
  }

  lemma DeviceParses(s: Sys, frames: seq<Bytes>, mps: nat, ts: seq<Bytes>)
    requires 0 < mps && MuxTask.Log(frames, Refinement.SegsOf(s.wire))
    requires ts <= BulkSpec.AllTransfers(mps, BulkIo.DEFAULT_MAX_OUT, frames)
    ensures var cut := BulkSpec.Cut(mps, [], BulkSpec.PacketsOf(mps, ts));
            var k := SatSub(|cut|, 2);
            && k <= |s.wire| && SegsIn(cut) == Refinement.SegsOf(s.wire[..k])
            && (ts == BulkSpec.AllTransfers(mps, BulkIo.DEFAULT_MAX_OUT, frames) ==> k == |s.wire|)
  {
    var segs := Refinement.SegsOf(s.wire);
    var cut := BulkSpec.Cut(mps, [], BulkSpec.PacketsOf(mps, ts));
    MuxIo.DeviceSeesSegments(frames, segs, mps, ts);
    assert cut == frames[..|cut|];
    ParsesLog(frames, segs, |cut|);
    SegsOfSize(s.wire);
    SegsOfPrefix(s.wire, SatSub(|cut|, 2));
  }
}
