/** What holds in every state the mux can reach, for any device and any interleaving of its
    connections, their pumps and forwarders, and their clients. */
module MuxTheorems {
  import opened Prelude
  import opened Codec
  import opened ConnSpec
  import opened System
  import Lane
  import LaneProofs
  import SystemProofs

  /** `s` is reached by some run from a fresh mux. */
  ghost predicate Reachable(s: Sys) {
    exists w, events :: IsRun(Init(w), events) && Run(Init(w), events) == s
  }

  lemma ReachableInv(s: Sys)
    requires Reachable(s)
    ensures Inv(s)
  {
    var w, events :| IsRun(Init(w), events) && Run(Init(w), events) == s;
    SystemProofs.InitOk(w);
    SystemProofs.RunKeeps(Init(w), events);
  }

  lemma ReachableLane(s: Sys, p: U16)
    requires Reachable(s) && p in s.lanes
    ensures LaneOk(s, p)
  {
    ReachableInv(s);
  }

  /** The part of a lane's invariant that the next theorems need, by itself. */
  lemma ReachableGate(s: Sys, p: U16)
    requires Reachable(s) && p in s.lanes
    ensures Lane.Gate(s.lanes[p], DataFor(s, p), CanSend(s.writer))
  {
    ReachableLane(s, p);
  }

  lemma ReachableInward(s: Sys, p: U16)
    requires Reachable(s) && p in s.lanes
    ensures Lane.Inbound(s.lanes[p], DrainsFor(s, p), CanSend(s.writer))
    ensures Lane.Updated(s.lanes[p], CanSend(s.writer))
    ensures OwnedBy(s.wire, s.lanes[p].conn.id) == s.lanes[p].sent
  {
    ReachableLane(s, p);
  }

  // ---- bytes out ---------------------------------------------------------------------------

  /** Outbound stream integrity. Of all frames on the shared wire, those of one connection carry, in
      order, a prefix of what its client wrote; with the writer channel open and the entry still
      in the table, that prefix, then `pending`, then the messages under way, then what the pump
      has not read, is exactly what the client wrote. Every frame after the SYN is numbered by the
      payload bytes before it, mod 2^32. */
  lemma OutboundIntegrity(s: Sys, p: U16)
    requires Reachable(s) && p in s.lanes && !s.lanes[p].pump.PumpOff?
    ensures var l := s.lanes[p];
            var frames := OwnedBy(s.wire, l.conn.id);
            && DataOf(frames) <= l.pumped + l.unread
            && (CanSend(s.writer) && l.inTable ==>
                  DataOf(frames) + l.conn.pending + Lane.Payloads(Lane.Pipeline(l, DataFor(s, p))) + l.unread
                  == l.pumped + l.unread)
            && forall i :: 1 <= i < |frames| ==> frames[i].seq_ == (1 + |DataOf(frames[..i])|) % 0x1_0000_0000
  {
    ReachableLane(s, p);
    var l := s.lanes[p];
    var rest := l.sent[1..];
    forall i | 1 <= i < |l.sent| ensures l.sent[i].seq_ == (1 + |DataOf(l.sent[..i])|) % 0x1_0000_0000 {
      NumberedAt(rest, 1, i - 1);
      assert l.sent[..i][1..] == rest[..i - 1];
      assert l.sent[..i][0].payload == [];
    }
  }

  /** A close that ends with an RST has lost nothing: everything the client wrote is on the wire. */
  lemma GracefulClose(s: Sys, p: U16)
    requires Reachable(s) && p in s.lanes
    requires s.lanes[p].why == Some(Drained) && Lane.EndsInRst(s.lanes[p])
    ensures var l := s.lanes[p];
            l.closed && DataOf(OwnedBy(s.wire, l.conn.id)) == l.pumped + l.unread
  {
    ReachableLane(s, p);
    assert s.lanes[p].pumped + [] == s.lanes[p].pumped;
  }

  /** A connection whose client has closed stays in the table only while bytes are unsent. */
  lemma ClosedLingersOnlyWithBytes(s: Sys, p: U16)
    requires Reachable(s) && InTable(s, p) && s.lanes[p].conn.clientClosed && CanSend(s.writer)
    ensures s.lanes[p].conn.pending != []
  {
    ReachableLane(s, p);
  }

  /** Work conservation: nothing pending, or the device's window full. */
  lemma WorkConserving(s: Sys, p: U16)
    requires Reachable(s) && InTable(s, p) && s.lanes[p].conn.state.Connected? && CanSend(s.writer)
    ensures s.lanes[p].conn.pending == [] || InFlight(s.lanes[p].conn) >= s.lanes[p].conn.rxWin
  {
    ReachableLane(s, p);
  }

  /** Against a device whose acknowledgements are honest, the 32-bit subtraction computes the true
      number of unacknowledged bytes, which never exceeds 65535 * 256, however far past 2^32 the
      stream has run. */
  lemma InFlightIsExact(s: Sys, p: U16)
    requires Reachable(s) && InTable(s, p) && s.lanes[p].conn.state.Connected? && CanSend(s.writer)
    requires s.lanes[p].ackHonest
    ensures var l := s.lanes[p];
            var sent := 1 + |DataOf(OwnedBy(s.wire, l.conn.id))|;
            && l.acked <= sent <= l.acked + 65535 * 256
            && InFlight(l.conn) == sent - l.acked
  {
    ReachableLane(s, p);
    Sub32Exact(Lane.SentCount(s.lanes[p]), s.lanes[p].acked);
  }

  /** What a data or close event flushes. */
  function Pushed(c: Conn, msg: Option<Bytes>): Conn {
    if msg.Some? then c.(pending := c.pending + msg.value) else c.(clientClosed := true)
  }

  /** Outcome `o` sends what flushing `c1` sends and frames without payload, and keeps the window. */
  ghost predicate Pushes(w: Writer, c1: Conn, o: Outcome) {
    && o.conn.rxAck == c1.rxAck && o.conn.rxWin == c1.rxWin
    && forall s :: s in o.segs ==> s.payload == [] || s in FlushLoop(w, c1).segs
  }

  lemma DataSegs(w: Writer, c: Conn, bytes: Bytes)
    ensures Pushes(w, Pushed(c, Some(bytes)), ClientData(w, c, bytes))
  {
    FlushFails(w, Pushed(c, Some(bytes)));
  }

  lemma CloseSegs(w: Writer, c: Conn)
    ensures Pushes(w, Pushed(c, None), ClientClose(w, c))
  {
    if c.state.Connected? {
      var c1 := Pushed(c, None);
      var r := Flush(w, c1);
      FlushFails(w, c1);
      assert r.segs == FlushLoop(w, c1).segs && r.conn.rxAck == c.rxAck && r.conn.rxWin == c.rxWin;
      ResetSegs(r.w, r.segs, r.conn, SendFailed);
      ResetSegs(r.w, r.segs, r.conn, Drained);
    }
  }

  lemma ResetSegs(w: Writer, segs: seq<Seg>, c: Conn, why: Why)
    ensures var o := ResetAndRemove(w, segs, c, why);
            && o.conn.rxAck == c.rxAck && o.conn.rxWin == c.rxWin
            && forall s :: s in o.segs ==> s.payload == [] || s in segs
  {
  }

  /** For any device at all: every payload a data or close event sends ends inside the window. */
  lemma ClientSendsInWindow(w: Writer, c: Conn, msg: Option<Bytes>)
    ensures var o := ClientMessage(w, c, msg);
            forall s :: s in o.segs && s.payload != [] ==> Sub32(s.seq_, o.conn.rxAck) + |s.payload| <= o.conn.rxWin
  {
    var c1 := Pushed(c, msg);
    if msg.Some? {
      DataSegs(w, c, msg.value);
    } else {
      CloseSegs(w, c);
    }
    FlushStaysInWindow(w, c1);
    forall s | s in ClientMessage(w, c, msg).segs && s.payload != []
      ensures Sub32(s.seq_, c.rxAck) + |s.payload| <= c.rxWin
    {
      assert InWindow(c1, s);
    }
  }

  lemma FlushAndCloseSegs(w: Writer, segs: seq<Seg>, c: Conn, deliver: seq<Bytes>)
    ensures forall s :: s in FlushAndClose(w, segs, c, deliver).segs ==>
              s in segs || s.payload == [] || s in FlushLoop(w, c).segs
  {
  }

  lemma SegmentSegs(w: Writer, c: Conn, seg: Seg, alive: bool)
    ensures var c0 := LaneProofs.Heard(c, seg);
            var c1 := LaneProofs.Counted(c0, seg.payload);
            forall s :: s in Segment(w, c, seg, alive).segs ==>
              s.payload == [] || s in FlushLoop(w, c0).segs || s in FlushLoop(SendWriter(w, []), c1).segs
  {
    var c0 := LaneProofs.Heard(c, seg);
    var c1 := LaneProofs.Counted(c0, seg.payload);
    FlushAndCloseSegs(w, [], c0, []);
    FlushAndCloseSegs(SendWriter(w, []), [SegOf(c1, ACK, [])], c1, [seg.payload]);
  }

  /** The same for what an incoming segment releases, against the window that segment brought. */
  lemma SegmentSendsInWindow(w: Writer, c: Conn, seg: Seg, alive: bool)
    ensures forall s :: s in Segment(w, c, seg, alive).segs && s.payload != [] ==>
              Sub32(s.seq_, seg.ack) + |s.payload| <= seg.window * 256
  {
    var c0 := LaneProofs.Heard(c, seg);
    var c1 := LaneProofs.Counted(c0, seg.payload);
    SegmentSegs(w, c, seg, alive);
    FlushStaysInWindow(w, c0);
    FlushStaysInWindow(SendWriter(w, []), c1);
    forall s | s in Segment(w, c, seg, alive).segs && s.payload != []
      ensures Sub32(s.seq_, seg.ack) + |s.payload| <= seg.window * 256
    {
      assert InWindow(c0, s) || InWindow(c1, s);
    }
  }

  // ---- back-pressure -----------------------------------------------------------------------

  /** `pending` is bounded by the high-water mark, the chunk that crosses it, 64 queued chunks and
      one in the pump's hand. */
  lemma PendingBounded(s: Sys, p: U16)
    requires Reachable(s) && InTable(s, p)
    ensures |s.lanes[p].conn.pending| <= 1048576 + 66 * 49116
  {
    ReachableGate(s, p);
  }

  /** Paused entries hold at least the low-water mark, and a pump that waits while not paused has a
      permit waiting for it: its next step is possible. */
  lemma WakeupNotLost(s: Sys, p: U16)
    requires Reachable(s) && p in s.lanes
    ensures InTable(s, p) && s.lanes[p].conn.txPause && CanSend(s.writer) ==>
              |s.lanes[p].conn.pending| >= TX_LOW_WATER
    ensures s.lanes[p].pump.Waiting? && !s.lanes[p].conn.txPause ==> Can(s, At(p, Lane.PumpWakes))
  {
    ReachableGate(s, p);
  }

  lemma {:induction false} ShutDownKeepsStranded(s: Sys, order: seq<U16>, p: U16)
    requires p in s.lanes && Stranded(s.lanes[p])
    ensures p in ShutDownAll(s, order).lanes && Stranded(ShutDownAll(s, order).lanes[p])
    decreases |order|
  {
    if order != [] {
      var q := order[0];
      var s1 := if InTable(s, q) then SystemProofs.CloseOne(s, q) else s;
      ShutDownKeepsStranded(s1, order[1..], p);
    }
  }

  /** No Connect of the run takes port `p`. */
  ghost predicate LeavesPort(s: Sys, events: seq<Event>, p: U16)
    requires IsRun(s, events)
    decreases |events|
  {
    events == []
    || (!(events[0].Connect? && s.nextPort == p) && LeavesPort(Next(s, events[0]), events[1..], p))
  }

  /** A stranded pump sleeps for good, whatever happens, until its port is used anew. */
  lemma {:induction false} StrandedForGood(s: Sys, events: seq<Event>, p: U16)
    requires p in s.lanes && Stranded(s.lanes[p])
    requires IsRun(s, events) && LeavesPort(s, events, p)
    ensures p in Run(s, events).lanes && Stranded(Run(s, events).lanes[p])
    decreases |events|
  {
    if events != [] {
      var e := events[0];
      if e.Shutdown? {
        ShutDownKeepsStranded(s, e.order, p);
      }
      assert p in Next(s, e).lanes && Stranded(Next(s, e).lanes[p]);
      StrandedForGood(Next(s, e), events[1..], p);
    }
  }

  // ---- bytes in ----------------------------------------------------------------------------

  /** Inbound stream integrity: while the forwarder lives, every payload byte taken from the device
      is with the client, in the forwarder's hand, or in the delivery channel, in order; the client
      never sees anything else. */
  lemma InboundIntegrity(s: Sys, p: U16)
    requires Reachable(s) && p in s.lanes
    ensures var l := s.lanes[p];
            && l.received <= l.inbound
            && (Lane.FwdAlive(l) ==> l.received + Lane.FwdHand(l.fwd) + Flatten(l.rxQ) == l.inbound)
            && (CanSend(s.writer) && Lane.Linked(l) ==> l.conn.txAck == (1 + |l.inbound|) % 0x1_0000_0000)
  {
    ReachableInward(s, p);
  }

  /** Receive flow control: a device that stays within the most generous right edge it was shown
      never overruns the window, no saturating operation clips, and while the forwarder lives the
      buffered count is exact. */
  lemma ReceiveWindowExact(s: Sys, p: U16)
    requires Reachable(s) && InTable(s, p) && s.lanes[p].winHonest
    ensures var l := s.lanes[p];
            && l.conn.rxBuffered <= RX_WINDOW
            && Sum(DrainsFor(s, p)) <= l.conn.rxBuffered
            && l.edge <= |l.inbound| - l.conn.rxBuffered + RX_WINDOW
            && (Lane.FwdAlive(l) ==>
                  l.conn.rxBuffered == |Flatten(l.rxQ)| + |Lane.FwdHand(l.fwd)| + Sum(DrainsFor(s, p)))
  {
    ReachableInward(s, p);
  }

  /** No lost window update: the last frame sent acknowledges everything taken so far and, when a
      full payload fits, shows at least that much window. */
  lemma WindowUpdateNotLost(s: Sys, p: U16)
    requires Reachable(s) && InTable(s, p) && s.lanes[p].conn.state.Connected? && CanSend(s.writer)
    ensures var l := s.lanes[p];
            var frames := OwnedBy(s.wire, l.conn.id);
            && frames != []
            && frames[|frames| - 1].ack == l.conn.txAck
            && (SatSub(RX_WINDOW, l.conn.rxBuffered) >= MAX_PAYLOAD ==>
                  frames[|frames| - 1].window >= MAX_PAYLOAD / 256)
  {
    ReachableInward(s, p);
  }

  // ---- connects ----------------------------------------------------------------------------

  /** The table: keys are source ports, no entry is dead, the reply is held exactly while
      connecting and the delivery channel exactly while connected. */
  lemma TableWellFormed(s: Sys, p: U16)
    requires Reachable(s) && InTable(s, p)
    ensures var c := s.lanes[p].conn;
            && c.sport == p && !c.state.Dead?
            && (c.reply <==> c.state.Connecting?) && (c.rxTx <==> c.state.Connected?)
  {
    ReachableLane(s, p);
  }

  function PendingPorts(s: Sys): set<U16> {
    set p | p in s.lanes && s.lanes[p].inTable && s.lanes[p].conn.reply
  }

  function RepliedIds(replies: seq<Answer>): set<nat> {
    if replies == [] then {} else {replies[0].id} + RepliedIds(replies[1..])
  }

  lemma {:induction false} RepliedIdsAre(replies: seq<Answer>)
    ensures forall id :: id in RepliedIds(replies) <==> exists i :: 0 <= i < |replies| && replies[i].id == id
    ensures (forall i, j :: 0 <= i < j < |replies| ==> replies[i].id != replies[j].id) ==>
              |RepliedIds(replies)| == |replies|
  {
    if replies != [] {
      var rest := replies[1..];
      RepliedIdsAre(rest);
      forall id ensures id in RepliedIds(replies) <==> exists i :: 0 <= i < |replies| && replies[i].id == id {
        if id in RepliedIds(rest) {
          var i :| 0 <= i < |rest| && rest[i].id == id;
          assert replies[i + 1].id == id;
        }
        if i :| 0 <= i < |replies| && replies[i].id == id && i > 0 {
          assert rest[i - 1].id == id;
        }
      }
    }
  }

  function Below(n: nat): set<nat> {
    if n == 0 then {} else Below(n - 1) + {n - 1}
  }

  lemma {:induction false} BelowSize(n: nat)
    ensures |Below(n)| == n && forall i: nat :: i in Below(n) <==> i < n
  {
    if n > 0 {
      BelowSize(n - 1);
    }
  }

  function Image(f: map<U16, nat>, ports: set<U16>): set<nat>
    requires ports <= f.Keys
  {
    set p | p in ports :: f[p]
  }

  lemma {:induction false} ImageSize(f: map<U16, nat>, ports: set<U16>)
    requires ports <= f.Keys && forall p, q :: p in f && q in f && f[p] == f[q] ==> p == q
    ensures |Image(f, ports)| == |ports|
    decreases ports
  {
    if ports != {} {
      var p :| p in ports;
      var rest := Image(f, ports - {p});
      ImageSize(f, ports - {p});
      assert f[p] !in rest;
      assert Image(f, ports) == rest + {f[p]};
    }
  }

  function PortIds(s: Sys): map<U16, nat> {
    map p | p in s.lanes :: s.lanes[p].conn.id
  }

  function PendingIds(s: Sys, ports: set<U16>): set<nat>
    requires forall p :: p in ports ==> p in s.lanes
  {
    Image(PortIds(s), ports)
  }

  lemma PendingIdsSize(s: Sys, ports: set<U16>)
    requires Ids(s) && forall p :: p in ports ==> p in s.lanes
    ensures |PendingIds(s, ports)| == |ports|
  {
    ImageSize(PortIds(s), ports);
  }

  lemma PendingPart(s: Sys)
    requires Accounts(s) && forall p :: p in s.lanes ==> s.lanes[p].conn.id < s.connects
    ensures var waiting := PendingIds(s, PendingPorts(s));
            && (forall id: nat :: id in waiting <==> exists p :: PendingAt(s, p, id))
            && (forall id :: id in waiting ==> id < s.connects && !Replied(s, id))
  {
    var waiting := PendingIds(s, PendingPorts(s));
    forall id: nat ensures id in waiting <==> exists p :: PendingAt(s, p, id) {
      if p :| PendingAt(s, p, id) {
        assert p in PendingPorts(s) && PortIds(s)[p] == id;
      }
      if id in waiting {
        var p :| p in PendingPorts(s) && s.lanes[p].conn.id == id;
        assert PendingAt(s, p, id);
      }
    }
    forall id | id in waiting ensures id < s.connects && !Replied(s, id) {
      var p :| PendingAt(s, p, id);
    }
  }

  lemma DisjointUnion(a: set<nat>, b: set<nat>, n: nat)
    requires forall id: nat :: id in a || id in b <==> id < n
    requires a !! b
    ensures |a| + |b| == n
  {
    BelowSize(n);
    assert a + b == Below(n);
  }

  lemma AccountsAddUp(s: Sys)
    requires Accounts(s) && Ids(s) && forall p :: p in s.lanes ==> s.lanes[p].conn.id < s.connects
    ensures s.connects == |s.replies| + |PendingPorts(s)|
  {
    var waiting, answered := PendingIds(s, PendingPorts(s)), RepliedIds(s.replies);
    RepliedIdsAre(s.replies);
    PendingIdsSize(s, PendingPorts(s));
    PendingPart(s);
    forall id: nat ensures id in answered <==> Replied(s, id) {
    }
    DisjointUnion(answered, waiting, s.connects);
  }

  /** Conservation of Connects: each one processed has exactly one reply, Ok or Err, or is one of
      the entries still waiting. */
  lemma ConnectsConserved(s: Sys)
    requires Reachable(s)
    ensures s.connects == |s.replies| + |PendingPorts(s)|
    ensures forall i, j :: 0 <= i < j < |s.replies| ==> s.replies[i].id != s.replies[j].id
  {
    ReachableInv(s);
    forall p | p in s.lanes ensures s.lanes[p].conn.id < s.connects {
      assert LaneOk(s, p);
    }
    AccountsAddUp(s);
  }

  /** After shutdown every Connect has been answered. */
  lemma ShutdownAnswersAll(s: Sys)
    requires Reachable(s) && !s.running
    ensures |s.replies| == s.connects
  {
    ReachableInv(s);
    ConnectsConserved(s);
    forall p | p in PendingPorts(s) ensures false {
      assert InTable(s, p);
    }
    assert PendingPorts(s) == {};
  }

  lemma PortsRepeat(m: nat, n: nat)
    requires m < n
    ensures 1 + m % PORTS == 1 + n % PORTS <==> (n - m) % PORTS == 0
    ensures (n - m) % PORTS == 0 ==> n - m >= PORTS
  {
  }

  lemma ReachableIds(s: Sys)
    requires Reachable(s)
    ensures Ids(s)
  {
    ReachableInv(s);
  }

  /** The n-th Connect uses port 1 + n mod 65535, never 0. It meets the latest connection on that
      port, of ordinal `id`, only if a whole number of cycles lies between them, so never before
      65534 other Connects have followed it; and the first 65535 find a port never used. */
  lemma SourcePorts(s: Sys, p: U16)
    requires Reachable(s)
    ensures s.nextPort == 1 + s.connects % PORTS
    ensures s.connects < PORTS ==> s.nextPort !in s.lanes && PortQuiet(s, s.nextPort)
    ensures p in s.lanes ==>
              var id := s.lanes[p].conn.id;
              && p == 1 + id % PORTS && id < s.connects
              && (p == s.nextPort <==> (s.connects - id) % PORTS == 0)
              && (p == s.nextPort ==> s.connects - id - 1 >= PORTS - 1)
  {
    ReachableIds(s);
    if p in s.lanes {
      PortsRepeat(s.lanes[p].conn.id, s.connects);
    }
    if s.nextPort in s.lanes {
      PortsRepeat(s.lanes[s.nextPort].conn.id, s.connects);
    }
  }

  lemma OverwriteBreaksAccounts(s: Sys, dport: U16)
    requires Accounts(s) && Ids(s) && CanSend(s.writer) && InTable(s, s.nextPort) && s.lanes[s.nextPort].conn.reply
    requires s.lanes[s.nextPort].conn.id < s.connects
    ensures !Accounts(OpenNext(s, dport))
  {
    var s', p := OpenNext(s, dport), s.nextPort;
    var id := s.lanes[p].conn.id;
    assert PendingAt(s, p, id) && s'.replies == s.replies;
    forall q ensures !PendingAt(s', q, id) {
      assert q in s.lanes && q != p ==> s.lanes[q].conn.id != id;
    }
    assert !Replied(s', id);
  }

  lemma OverwriteKeepsAccounts(s: Sys, dport: U16)
    requires Accounts(s) && CanSend(s.writer) && !(InTable(s, s.nextPort) && s.lanes[s.nextPort].conn.reply)
    requires forall p :: p in s.lanes ==> s.lanes[p].conn.id < s.connects
    ensures Accounts(OpenNext(s, dport))
  {
    var s', p := OpenNext(s, dport), s.nextPort;
    assert s'.replies == s.replies;
    forall q, id | PendingAt(s', q, id) ensures !Replied(s', id) {
      if q != p {
        assert PendingAt(s, q, id);
      }
    }
    forall id | 0 <= id < s'.connects ensures Replied(s', id) || exists q :: PendingAt(s', q, id) {
      if id == s.connects {
        assert PendingAt(s', p, id);
      } else if !Replied(s, id) {
        var q :| PendingAt(s, q, id);
        assert PendingAt(s', q, id);
      }
    }
  }

  /** Without a quiet port the accounting of Connects survives exactly if the entry overwritten, if
      any, was not itself waiting for its reply. */
  lemma OverwriteLosesReply(s: Sys, dport: U16)
    requires Reachable(s) && s.running && CanSend(s.writer)
    ensures Accounts(OpenNext(s, dport)) <==> !(InTable(s, s.nextPort) && s.lanes[s.nextPort].conn.reply)
  {
    ReachableInv(s);
    forall p | p in s.lanes ensures s.lanes[p].conn.id < s.connects {
      assert LaneOk(s, p);
    }
    if InTable(s, s.nextPort) && s.lanes[s.nextPort].conn.reply {
      OverwriteBreaksAccounts(s, dport);
    } else {
      OverwriteKeepsAccounts(s, dport);
    }
  }
}
