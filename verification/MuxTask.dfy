/** The mux task itself: `run`, handle_incoming, flush_pending, send_tcp, send_raw, teardown and
    the reader task of src/usb/mux.rs, each shown to take the transition that MuxSpec gives it. */
module MuxTask {
  import opened Prelude
  import opened Codec
  import opened ConnSpec
  import opened MuxSpec

  class Connection {
    const id: nat
    const sport: U16
    const dport: U16
    var state: ConnState
    var txSeq: U32
    var txAck: U32
    var rxSeq: U32
    var rxAck: U32
    var rxWin: U32
    var reply: bool
    var rxTx: bool
    var rxBuffered: U32
    var pending: Bytes
    var clientClosed: bool
    var txPause: bool
    var resumePermit: bool

    constructor (id: nat, sport: U16, dport: U16)
      ensures View() == Fresh(id, sport, dport)
    {
      this.id, this.sport, this.dport := id, sport, dport;
      state := Connecting;
      txSeq, txAck, rxSeq, rxAck, rxWin, rxBuffered := 0, 0, 0, 0, 0, 0;
      reply, rxTx, clientClosed, txPause, resumePermit := true, false, false, false, false;
      pending := [];
    }

    ghost function View(): Conn
      reads this
    {
      Conn(id, sport, dport, state, txSeq, txAck, rxSeq, rxAck, rxWin, reply, rxTx, rxBuffered, pending, clientClosed,
           txPause, resumePermit)
    }
  }

  datatype HandshakeError =
    | WriterGone
    | HeaderTooShort
    | NotVersion(proto: U32)
    | PayloadTooShort
    | Unsupported(major: U32)

  const VERSION_PAYLOAD: Bytes := Be32(2) + Be32(0) + [0, 0, 0, 0]

  /** What the device must answer to the VERSION packet, still in 8-byte framing. */
  function CheckVersion(pkt: Bytes): Option<HandshakeError> {
    if |pkt| < V1_HEADER_SIZE then Some(HeaderTooShort)
    else if Get32(pkt, 0) != PROTO_VERSION then Some(NotVersion(Get32(pkt, 0)))
    else if |pkt| < V1_HEADER_SIZE + 12 then Some(PayloadTooShort)
    else if Get32(pkt, V1_HEADER_SIZE) != 2 then Some(Unsupported(Get32(pkt, V1_HEADER_SIZE)))
    else None
  }

  /** The device's view of a frame: it is well framed, and parses as segment `s` under the header
      counter `tx`. */
  predicate Carries(f: Bytes, tx: U16, s: Seg) {
    WellFramed(f) && ParsePacket(2, f) == Tcp(s) && Get16(f, 12) == tx
  }

  predicate FrameAt(frames: seq<Bytes>, segs: seq<Seg>, i: nat)
    requires |frames| == 2 + |segs| && i < |segs|
  {
    Carries(frames[2 + i], (1 + i) % 0x1_0000, segs[i])
  }

  function VersionFrame(): Bytes {
    RawFrame(0, PROTO_VERSION, 0, 0, VERSION_PAYLOAD, [])
  }

  function SetupFrame(): Bytes {
    RawFrame(2, PROTO_SETUP, 0, 0xFFFF, [], [0x07])
  }

  /** The two handshake frames, then one frame per segment, numbered from 1 by the header counter. */
  ghost predicate Log(frames: seq<Bytes>, segs: seq<Seg>) {
    && |frames| == 2 + |segs|
    && frames[0] == VersionFrame() && frames[1] == SetupFrame()
    && forall i :: 0 <= i < |segs| ==> FrameAt(frames, segs, i)
  }

  lemma LogSnoc(frames: seq<Bytes>, segs: seq<Seg>, tx: U16, rx: U16, s: Seg)
    requires Log(frames, segs) && tx == (1 + |segs|) % 0x1_0000 && Fits(s.payload)
    ensures Log(frames + [EncodeTcp(tx, rx, s)], segs + [s])
  {
    TcpRoundTrip(tx, rx, s);
    var frames', segs' := frames + [EncodeTcp(tx, rx, s)], segs + [s];
    forall i | 0 <= i < |segs'| ensures FrameAt(frames', segs', i) {
      if i < |segs| {
        assert FrameAt(frames, segs, i);
      }
    }
  }

  lemma NextCount(n: nat)
    ensures ((1 + n) % 0x1_0000 + 1) % 0x1_0000 == (1 + (n + 1)) % 0x1_0000
  {
  }

  /** Having sent `sent`, doing `rest` completes the flush `r0` begun at `s0`. */
  ghost predicate Continues(rest: Flushed, sent: seq<Seg>, r0: Flushed, s0: seq<Seg>) {
    rest.ok == r0.ok && rest.conn == r0.conn && rest.w == r0.w && sent + rest.segs == s0 + r0.segs
  }

  lemma LoopDone(w: Writer, c: Conn, sent: seq<Seg>, r0: Flushed, s0: seq<Seg>)
    requires Continues(FlushLoop(w, c), sent, r0, s0) && (c.pending == [] || InFlight(c) >= c.rxWin)
    ensures r0.ok && r0.conn == c && r0.w == w && sent == s0 + r0.segs
  {
    assert sent + [] == sent;
  }

  lemma TurnSent(w: Writer, c: Conn) returns (r: Flushed)
    requires c.pending != [] && InFlight(c) < c.rxWin && CanSend(w)
    ensures r == FlushLoop(AfterSend(w), FlushNext(c))
    ensures FlushLoop(w, c) == r.(segs := [FlushSeg(c)] + r.segs)
  {
    FlushTurn(w, c);
    r := FlushLoop(AfterSend(w), FlushNext(c));
  }

  lemma TurnFailed(w: Writer, c: Conn)
    requires c.pending != [] && InFlight(c) < c.rxWin && !CanSend(w)
    ensures 0 < ChunkLen(c) <= |c.pending|
    ensures FlushLoop(w, c) == Flushed(false, AfterSend(w), [], c.(pending := c.pending[ChunkLen(c)..]))
  {
    ChunkFits(c);
  }

  lemma RegroupSegs(sent: seq<Seg>, s: Seg, rest: seq<Seg>)
    ensures sent + ([s] + rest) == sent + [s] + rest
  {
  }

  lemma FlushStep(w: Writer, c: Conn, sent: seq<Seg>, r0: Flushed, s0: seq<Seg>)
    requires c.pending != [] && InFlight(c) < c.rxWin && Continues(FlushLoop(w, c), sent, r0, s0)
    ensures 0 < ChunkLen(c) <= |c.pending|
    ensures CanSend(w) ==> Continues(FlushLoop(AfterSend(w), FlushNext(c)), sent + [FlushSeg(c)], r0, s0)
    ensures !CanSend(w) ==> !r0.ok && r0.conn == c.(pending := c.pending[ChunkLen(c)..]) && r0.w == AfterSend(w)
                            && sent == s0 + r0.segs
  {
    if CanSend(w) {
      ChunkFits(c);
      var r := TurnSent(w, c);
      RegroupSegs(sent, FlushSeg(c), r.segs);
    } else {
      TurnFailed(w, c);
      assert sent + [] == sent;
    }
  }

  /** `write_tx` and `MuxState` together: the writer channel, the header counters, and everything
      queued on the channel so far. */
  class Link {
    var version: nat
    var txSeq: U16
    var rxSeq: U16
    var writer: Writer
    var frames: seq<Bytes>
    ghost var segs: seq<Seg>

    /** Fresh from `MuxState::default()`, with nothing sent. */
    constructor (w: Writer)
      ensures Idle() && writer == w
    {
      version, txSeq, rxSeq, writer, frames, segs := 0, 0, 0, w, [], [];
    }

    ghost predicate Idle()
      reads this
    {
      version == 0 && txSeq == 0 && rxSeq == 0 && frames == [] && segs == []
    }

    /** Every frame after the handshake carries the segment logged for it. */
    ghost predicate Valid()
      reads this
    {
      version == 2 && Log(frames, segs) && (CanSend(writer) ==> txSeq == (1 + |segs|) % 0x1_0000)
    }

    // ---- sending -------------------------------------------------------------------------

    method SendRaw(proto: U32, header: Bytes, payload: Bytes, resetSeq: bool) returns (ok: bool)
      modifies this`txSeq, this`rxSeq, this`writer, this`frames
      ensures FrameLen(version, header, payload) > USB_MTU ==>
                !ok && txSeq == old(txSeq) && rxSeq == old(rxSeq) && writer == old(writer) && frames == old(frames)
      ensures FrameLen(version, header, payload) <= USB_MTU ==>
                var tx := if resetSeq && version >= 2 then 0 else old(txSeq);
                && rxSeq == (if resetSeq && version >= 2 then 0xFFFF else old(rxSeq))
                && txSeq == (if version >= 2 then (tx + 1) % 0x1_0000 else tx)
                && ok == CanSend(old(writer)) && writer == AfterSend(old(writer))
                && frames == old(frames) + if ok then [RawFrame(version, proto, tx, rxSeq, header, payload)] else []
    {
      var total := HeaderSize(version) + |header| + |payload|;
      if total > USB_MTU {
        return false;
      }
      if resetSeq && version >= 2 {
        txSeq := 0;
        rxSeq := 0xFFFF;
      }
      var buf := Be32(proto) + Be32(total);
      if version >= 2 {
        buf := buf + Be32(MUX_MAGIC) + Be16(txSeq) + Be16(rxSeq);
      }
      ghost var tx := txSeq;
      if version >= 2 {
        txSeq := (txSeq + 1) % 0x1_0000;
      }
      buf := buf + header;
      buf := buf + payload;
      assert buf == RawFrame(version, proto, tx, rxSeq, header, payload);
      ok := CanSend(writer);
      writer := AfterSend(writer);
      if ok {
        frames := frames + [buf];
      }
    }

    method SendTcp(c: Connection, flags: Byte, payload: Bytes) returns (ok: bool)
      requires Valid()
      modifies this
      ensures Valid() && rxSeq == old(rxSeq)
      ensures ok == SendOk(old(writer), payload)
      ensures writer == SendWriter(old(writer), payload)
      ensures segs == old(segs) + SendSegs(old(writer), c.View(), flags, payload)
    {
      var win := SatSub(RX_WINDOW, c.rxBuffered);
      var s := Seg(c.sport, c.dport, c.txSeq, c.txAck, flags, win / 256, payload);
      var hdr := Be16(c.sport) + Be16(c.dport) + Be32(c.txSeq) + Be32(c.txAck)
                 + [TCP_HEADER_SIZE / 4 * 16, flags] + Be16(win / 256) + [0, 0, 0, 0];
      assert hdr == TcpHeader(s) && s == SegOf(c.View(), flags, payload);
      TcpFields(s);
      ok := SendRaw(PROTO_TCP, hdr, payload, false);
      if ok {
        assert frames == old(frames) + [EncodeTcp(old(txSeq), rxSeq, s)];
        LogSnoc(old(frames), segs, old(txSeq), rxSeq, s);
        NextCount(|segs|);
        segs := segs + [s];
      } else {
        assert frames == old(frames);
      }
    }

    // ---- the handshake -------------------------------------------------------------------

    /** VERSION goes out in 8-byte framing. */
    method SendVersion() returns (ok: bool)
      requires Idle()
      modifies this
      ensures ok == CanSend(old(writer)) && writer == AfterSend(old(writer))
      ensures version == 0 && txSeq == 0 && rxSeq == 0 && segs == []
      ensures frames == if ok then [VersionFrame()] else []
    {
      ok := SendRaw(PROTO_VERSION, VERSION_PAYLOAD, [], false);
    }

    /** The device's answer, `pkt`. Once it has accepted version 2, SETUP goes out in 16-byte framing
        and resets the header counters. */
    method Accept(pkt: Bytes) returns (err: Option<HandshakeError>)
      requires version == 0 && segs == [] && frames == [VersionFrame()]
      modifies this
      ensures err.None? <==> CheckVersion(pkt).None? && CanSend(old(writer))
      ensures CheckVersion(pkt).Some? ==> err == CheckVersion(pkt) && writer == old(writer) && frames == old(frames)
      ensures err.None? ==>
                && Valid() && segs == []
                && txSeq == 1 && rxSeq == 0xFFFF && writer == AfterSend(old(writer))
                && frames == [VersionFrame(), SetupFrame()]
    {
      err := CheckVersion(pkt);
      if err.Some? {
        return;
      }
      version := 2;
      var ok := SendRaw(PROTO_SETUP, [], [0x07], true);
      if !ok {
        return Some(WriterGone);
      }
    }

    // ---- one connection's share ----------------------------------------------------------

    /** One turn of the flush loop, with an open window of `available` bytes. */
    method SendChunk(c: Connection, available: nat) returns (ok: bool)
      requires Valid() && c.pending != [] && InFlight(c.View()) < c.rxWin
      requires available == c.rxWin - InFlight(c.View())
      modifies this, c
      ensures Valid() && rxSeq == old(rxSeq) && writer == AfterSend(old(writer))
      ensures ok == CanSend(old(writer))
      ensures 0 < ChunkLen(old(c.View())) <= |old(c.pending)|
      ensures ok ==> c.View() == FlushNext(old(c.View())) && segs == old(segs) + [FlushSeg(old(c.View()))]
      ensures !ok ==> && c.View() == old(c.View()).(pending := old(c.pending)[ChunkLen(old(c.View()))..])
                      && segs == old(segs)
    {
      ghost var was := c.View();
      ChunkStep(was);
      var chunkLen := Min(Min(|c.pending|, MAX_PAYLOAD), available);
      var chunk := c.pending[..chunkLen];
      c.pending := c.pending[chunkLen..];
      assert SegOf(c.View(), ACK, chunk) == FlushSeg(was);
      ok := SendTcp(c, ACK, chunk);
      if ok {
        c.txSeq := Add32(c.txSeq, |chunk|);
      } else {
        assert segs == old(segs);
      }
    }

    method FlushPending(c: Connection) returns (ok: bool, ghost r: Flushed)
      requires Valid()
      modifies this, c
      ensures Valid() && rxSeq == old(rxSeq)
      ensures r == Flush(old(writer), old(c.View()))
      ensures ok == r.ok && c.View() == r.conn && writer == r.w && segs == old(segs) + r.segs
    {
      r := Flush(writer, c.View());
      ghost var r0, s0 := FlushLoop(writer, c.View()), segs;
      while c.pending != []
        invariant Valid() && rxSeq == old(rxSeq)
        invariant Continues(FlushLoop(writer, c.View()), segs, r0, s0)
        decreases |c.pending|
      {
        var inflight := Sub32(c.txSeq, c.rxAck);
        if inflight >= c.rxWin {
          break;
        }
        FlushStep(writer, c.View(), segs, r0, s0);
        var sent := SendChunk(c, c.rxWin - inflight);
        if !sent {
          return false, r;
        }
      }
      LoopDone(writer, c.View(), segs, r0, s0);
      if c.txPause && |c.pending| < TX_LOW_WATER {
        c.txPause := false;
        c.resumePermit := true;
      }
      return true, r;
    }

  }

  /** What an arm leaves for its caller: its frames are sent, and the connection either is as the
      outcome says or is due for teardown. */
  ghost predicate Due(gone: bool, c: Conn, o: Outcome) {
    && gone == o.fate.Gone?
    && (gone ==> TearDown(c) == o.conn && o.replies == FailReply(c))
    && (!gone ==> c == o.conn && o.replies == [])
  }

  /** The deliveries log after `s`, whose outcome delivers `d`. */
  ghost predicate Delivered(before: seq<(U16, Bytes)>, after: seq<(U16, Bytes)>, s: Seg, d: seq<Bytes>) {
    (d == [] && after == before) || (d == [s.payload] && after == before + [(s.dst, s.payload)])
  }

  lemma KnownOutcome(m: MuxSpec.Mux, s: Seg, userAlive: bool) returns (o: Outcome)
    requires s.dst in m.table
    ensures o == Segment(m.writer, m.table[s.dst], s, userAlive)
    ensures MuxSpec.OnSegment(m, s, userAlive) == OnOutcome(m, s.dst, o) && DeliveredBy(m, s, userAlive) == o.deliver
  {
    o := Segment(m.writer, m.table[s.dst], s, userAlive);
  }

  class Mux {
    const link: Link
    var connections: map<U16, Connection>
    var nextSport: U16
    var connects: nat
    var replies: seq<Answer>
    var deliveries: seq<(U16, Bytes)>

    constructor (link: Link)
      requires link.Valid() && link.segs == []
      ensures Valid() && View() == MuxSpec.Mux(map[], 1, 0, link.writer, [], []) && deliveries == []
    {
      this.link := link;
      connections, nextSport, connects, replies, deliveries := map[], 1, 0, [], [];
    }

    /** Every entry is filed under its own port, so no two ports share one. */
    ghost predicate Valid()
      reads this, link
    {
      link.Valid() && forall p :: p in connections ==> connections[p].sport == p
    }

    ghost function Table(): map<U16, Conn>
      reads this, connections.Values
    {
      map p | p in connections :: connections[p].View()
    }

    ghost function View(): MuxSpec.Mux
      reads this, link, connections.Values
    {
      MuxSpec.Mux(Table(), nextSport, connects, link.writer, link.segs, replies)
    }

    // ---- client data and close -----------------------------------------------------------

    method DataArm(conn: Connection, bytes: Bytes) returns (gone: bool)
      requires link.Valid() && conn.state == Connected
      modifies link, conn
      ensures link.Valid() && link.rxSeq == old(link.rxSeq)
      ensures var o := ClientData(old(link.writer), old(conn.View()), bytes);
              link.writer == o.w && link.segs == old(link.segs) + o.segs && Due(gone, conn.View(), o)
    {
      ghost var w, c, s0 := link.writer, conn.View(), link.segs;
      conn.pending := conn.pending + bytes;
      ghost var f;
      var ok;
      ok, f := link.FlushPending(conn);
      if ok && |conn.pending| > TX_HIGH_WATER {
        conn.txPause := true;
      }
      gone := !ok;
      DataDone(w, c, bytes, f, conn.View());
    }

    method CloseArm(conn: Connection) returns (gone: bool)
      requires link.Valid() && conn.state == Connected
      modifies link, conn
      ensures link.Valid() && link.rxSeq == old(link.rxSeq)
      ensures var o := ClientClose(old(link.writer), old(conn.View()));
              link.writer == o.w && link.segs == old(link.segs) + o.segs && Due(gone, conn.View(), o)
    {
      ghost var w, c, s0 := link.writer, conn.View(), link.segs;
      conn.clientClosed := true;
      ghost var f;
      var ok;
      ok, f := link.FlushPending(conn);
      gone := !ok || conn.pending == [];
      if gone {
        var _ := link.SendTcp(conn, RST, []);
      }
      assert link.segs == s0 + (f.segs + if gone then SendSegs(f.w, f.conn, RST, []) else []);
      CloseDone(w, c, f, gone);
    }

    // ---- handle_incoming, one connection's part ------------------------------------------

    /** SYN/ACK for a connecting entry. An ACK that cannot be sent leaves it connecting. */
    method EstablishArm(conn: Connection)
      requires link.Valid()
      modifies link, conn, this`replies
      ensures link.Valid() && link.rxSeq == old(link.rxSeq)
      ensures var o := Established(old(link.writer), old(conn.View()));
              && link.writer == o.w && link.segs == old(link.segs) + o.segs && replies == old(replies) + o.replies
              && conn.View() == o.conn
    {
      conn.txSeq := Add32(conn.txSeq, 1);
      conn.txAck := Add32(conn.txAck, 1);
      var ok := link.SendTcp(conn, ACK, []);
      if ok {
        conn.state := Connected;
        conn.rxTx := true;
        if conn.reply {
          conn.reply := false;
          replies := replies + [Answer(conn.id, true)];
        }
      }
    }

    /** Flush what the acknowledged window allows and finish a deferred close. */
    method FlushAndCloseArm(conn: Connection) returns (gone: bool)
      requires link.Valid()
      modifies link, conn
      ensures link.Valid() && link.rxSeq == old(link.rxSeq)
      ensures var o := FlushAndClose(old(link.writer), [], old(conn.View()), []);
              link.writer == o.w && link.segs == old(link.segs) + o.segs && Due(gone, conn.View(), o)
    {
      ghost var w, c, s0 := link.writer, conn.View(), link.segs;
      ghost var f;
      var ok;
      ok, f := link.FlushPending(conn);
      gone := false;
      var finished := ok && conn.clientClosed && conn.pending == [];
      if finished {
        gone := link.SendTcp(conn, RST, []);
      }
      assert link.segs == s0 + (f.segs + if finished then SendSegs(f.w, f.conn, RST, []) else []);
      FlushAndCloseDone(w, c, f);
    }

    /** An ACK segment of a connected entry: deliver and acknowledge its payload, then flush. */
    method AckArm(conn: Connection, payload: Bytes, userAlive: bool) returns (gone: bool, delivered: bool)
      requires link.Valid()
      modifies link, conn
      ensures link.Valid() && link.rxSeq == old(link.rxSeq)
      ensures var o := AckSegment(old(link.writer), old(conn.View()), payload, userAlive);
              && link.writer == o.w && link.segs == old(link.segs) + o.segs && Due(gone, conn.View(), o)
              && o.deliver == if delivered then [payload] else []
    {
      delivered := false;
      if payload != [] {
        if !userAlive || !conn.rxTx {
          var _ := link.SendTcp(conn, RST, []);
          return true, false;
        }
        delivered := true;
        AckDone(link.writer, conn.View(), payload);
        var len := |payload| % 0x1_0000_0000;
        conn.rxBuffered := SatAdd32(conn.rxBuffered, len);
        conn.txAck := Add32(conn.txAck, len);
        var ok := link.SendTcp(conn, ACK, []);
        if !ok {
          return false, true;
        }
      }
      gone := FlushAndCloseArm(conn);
    }

    // ---- the table -----------------------------------------------------------------------

    method Teardown(sport: U16)
      requires Valid() && sport in connections
      modifies this`connections, this`replies, connections[sport]
      ensures Valid() && connections == old(connections) - {sport}
      ensures replies == old(replies) + FailReply(old(connections[sport].View()))
    {
      var conn := connections[sport];
      connections := connections - {sport};
      conn.state := Dead;
      conn.rxTx := false;
      if conn.reply {
        conn.reply := false;
        replies := replies + [Answer(conn.id, false)];
      }
    }

    /** Tear down what an arm found due. `m` is the state the arm started from. */
    method Settle(sport: U16, gone: bool, ghost o: Outcome, ghost m: MuxSpec.Mux)
      requires Valid() && sport in connections && gone == o.fate.Gone?
      requires sport in m.table && View() == m.(table := m.table[sport := connections[sport].View()],
                                                writer := o.w, segs := m.segs + o.segs, replies := replies)
      requires var c := connections[sport].View();
               if gone then TearDown(c) == o.conn && replies + FailReply(c) == m.replies + o.replies
               else c == o.conn && replies == m.replies + o.replies
      modifies this`connections, this`replies, connections[sport]
      ensures Valid() && View() == MuxSpec.OnOutcome(m, sport, o) && connections.Values <= old(connections.Values)
      ensures connections == if gone then old(connections) - {sport} else old(connections)
    {
      if gone {
        ghost var t := Table();
        Teardown(sport);
        assert Table() == t - {sport};
        assert t - {sport} == m.table - {sport};
      }
    }

    /** Only the entry for `sport` has changed. */
    twostate lemma OneChanged(sport: U16)
      requires old(Valid()) && connections == old(connections) && sport in connections
      requires forall q :: q in connections && q != sport ==> unchanged(connections[q])
      ensures Table() == old(Table())[sport := connections[sport].View()]
    {
    }

    // ---- the arms of the event loop ------------------------------------------------------

    /** File the new entry if its SYN is out (`sent`), else fail its Connect. `m` is the state the
        Connect found. */
    method Store(conn: Connection, sent: bool, ghost m: MuxSpec.Mux, dport: U16)
      requires Valid() && conn.View() == Fresh(m.connects, m.nextPort, dport)
      requires sent == SendOk(m.writer, []) && link.writer == SendWriter(m.writer, [])
      requires link.segs == m.segs + SendSegs(m.writer, conn.View(), SYN, [])
      requires nextSport == NextPort(m.nextPort) && connects == m.connects + 1
      requires Table() == m.table && replies == m.replies && conn !in connections.Values
      modifies this`connections, this`replies, conn
      ensures Valid() && View() == MuxSpec.OnConnect(m, dport)
      ensures connections.Values <= old(connections.Values) + {conn}
    {
      ConnectDone(m, dport);
      if sent {
        connections := connections[conn.sport := conn];
        assert Table() == m.table[conn.sport := conn.View()];
        assert replies + [] == replies;
      } else {
        conn.reply := false;
        replies := replies + [Answer(conn.id, false)];
        assert Table() == m.table;
      }
    }

    /** Connect. The entry is stored only once its SYN is queued; whatever the port still held is
        overwritten. */
    method OnConnect(dport: U16)
      requires Valid()
      modifies this, link
      ensures Valid() && View() == MuxSpec.OnConnect(old(View()), dport) && deliveries == old(deliveries)
      ensures fresh(connections.Values - old(connections.Values))
    {
      ghost var m := View();
      var conn := new Connection(connects, nextSport, dport);
      nextSport := NextPort(nextSport);
      connects := connects + 1;
      var ok := link.SendTcp(conn, SYN, []);
      assert Table() == m.table;
      Store(conn, ok, m, dport);
    }

    method MessageArm(conn: Connection, payload: Option<Bytes>) returns (gone: bool)
      requires link.Valid()
      modifies link, conn
      ensures link.Valid() && link.rxSeq == old(link.rxSeq)
      ensures var o := ClientMessage(old(link.writer), old(conn.View()), payload);
              link.writer == o.w && link.segs == old(link.segs) + o.segs && Due(gone, conn.View(), o)
    {
      if conn.state != Connected {
        assert link.segs + [] == link.segs;
        return false;
      }
      match payload {
        case Some(bytes) => gone := DataArm(conn, bytes);
        case None => gone := CloseArm(conn);
      }
    }

    /** A message of a pump: client bytes, or None once the client has closed. */
    method OnMessage(sport: U16, payload: Option<Bytes>)
      requires Valid()
      modifies this, link, connections.Values
      ensures Valid() && View() == MuxSpec.OnMessage(old(View()), sport, payload) && deliveries == old(deliveries)
      ensures connections.Values <= old(connections.Values)
    {
      if sport in connections {
        var conn := connections[sport];
        ghost var m := View();
        ghost var o := ClientMessage(link.writer, conn.View(), payload);
        var gone := MessageArm(conn, payload);
        OneChanged(sport);
        assert replies + [] == replies;
        Settle(sport, gone, o, m);
      }
    }

    method DrainArm(conn: Connection, n: U32)
      requires link.Valid()
      modifies link, conn
      ensures link.Valid() && link.rxSeq == old(link.rxSeq)
      ensures var o := DrainReport(old(link.writer), old(conn.View()), n);
              && link.writer == o.w && link.segs == old(link.segs) + o.segs && conn.View() == o.conn
              && o.fate.Stay? && o.replies == []
    {
      var before := SatSub(RX_WINDOW, conn.rxBuffered);
      conn.rxBuffered := SatSub(conn.rxBuffered, n);
      var after := SatSub(RX_WINDOW, conn.rxBuffered);
      if conn.state == Connected && before < MAX_PAYLOAD && after >= MAX_PAYLOAD {
        var _ := link.SendTcp(conn, ACK, []);
      } else {
        assert link.segs + [] == link.segs;
      }
    }

    /** A drain report of a forwarder. */
    method OnDrain(sport: U16, n: U32)
      requires Valid()
      modifies this, link, connections.Values
      ensures Valid() && View() == MuxSpec.OnDrain(old(View()), sport, n) && deliveries == old(deliveries)
      ensures connections.Values <= old(connections.Values)
    {
      if sport in connections {
        var conn := connections[sport];
        ghost var m := View();
        ghost var o := DrainReport(link.writer, conn.View(), n);
        DrainArm(conn, n);
        OneChanged(sport);
        assert replies + [] == replies;
        Settle(sport, false, o, m);
      }
    }

    /** A segment for an entry of the table: handle_incoming's connection part. */
    method SegmentArm(conn: Connection, s: Seg, userAlive: bool, ghost o: Outcome) returns (gone: bool)
      requires link.Valid() && o == Segment(link.writer, conn.View(), s, userAlive)
      modifies link, conn, this`replies, this`deliveries
      ensures link.Valid() && link.rxSeq == old(link.rxSeq)
      ensures Delivered(old(deliveries), deliveries, s, o.deliver)
      ensures && link.writer == o.w && link.segs == old(link.segs) + o.segs
              && gone == o.fate.Gone?
              && (if gone then TearDown(conn.View()) == o.conn
                               && replies + FailReply(conn.View()) == old(replies) + o.replies
                  else conn.View() == o.conn && replies == old(replies) + o.replies)
    {
      conn.rxSeq := s.seq_;
      conn.rxAck := s.ack;
      conn.rxWin := s.window * 256;
      gone := false;
      match conn.state {
        case Connecting =>
          if s.flags == SYN + ACK {
            EstablishArm(conn);
          } else {
            gone := true;
            assert link.segs + [] == link.segs;
          }
        case Connected =>
          if HasRst(s.flags) || s.flags != ACK {
            gone := true;
            assert link.segs + [] == link.segs;
          } else {
            var delivered;
            gone, delivered := AckArm(conn, s.payload, userAlive);
            if delivered {
              deliveries := deliveries + [(s.dst, s.payload)];
            }
            assert replies + [] == replies;
          }
        case Dead =>
          assert link.segs + [] == link.segs && replies + [] == replies;
      }
    }

    /** The same, tearing the entry down if due. */
    method KnownPort(s: Seg, userAlive: bool, ghost o: Outcome)
      requires Valid() && s.dst in connections
      requires o == Segment(link.writer, connections[s.dst].View(), s, userAlive)
      modifies this, link, connections[s.dst]
      ensures Valid() && View() == MuxSpec.OnOutcome(old(View()), s.dst, o) && link.rxSeq == old(link.rxSeq)
      ensures Delivered(old(deliveries), deliveries, s, o.deliver)
      ensures connections.Values <= old(connections.Values)
    {
      var conn := connections[s.dst];
      ghost var m := View();
      var gone := SegmentArm(conn, s, userAlive, o);
      OneChanged(s.dst);
      Settle(s.dst, gone, o, m);
    }

    /** A segment for a port without an entry is answered with a RST, from an entry that exists
        only for the occasion. */
    method UnknownPort(s: Seg)
      requires Valid() && s.dst !in connections
      modifies link
      ensures Valid() && View() == MuxSpec.OnSegment(old(View()), s, true) && link.rxSeq == old(link.rxSeq)
    {
      ghost var m := View();
      if !HasRst(s.flags) {
        var anon := new Connection(0, s.dst, s.src);
        anon.state := Dead;
        anon.reply := false;
        anon.txAck := s.seq_;
        var _ := link.SendTcp(anon, RST, []);
        assert SegOf(anon.View(), RST, []) == Stranger(s)[0];
      }
      assert Table() == m.table;
    }

    /** One packet from the reader task: note the device's header counter, then dispatch. Packets
        too short to parse, and protocols other than TCP, change nothing else. */
    method OnPacket(pkt: Bytes, userAlive: bool)
      requires Valid()
      modifies this, link, connections.Values
      ensures Valid() && link.rxSeq == if |pkt| >= V2_HEADER_SIZE then Get16(pkt, 14) else old(link.rxSeq)
      ensures View() == match ParsePacket(2, pkt)
                        case Tcp(s) => MuxSpec.OnSegment(old(View()), s, userAlive)
                        case _ => old(View())
      ensures match ParsePacket(2, pkt)
              case Tcp(s) => Delivered(old(deliveries), deliveries, s, DeliveredBy(old(View()), s, userAlive))
              case _ => deliveries == old(deliveries)
      ensures connections.Values <= old(connections.Values)
    {
      if link.version >= 2 && |pkt| >= V2_HEADER_SIZE {
        link.rxSeq := Get16(pkt, 14);
      }
      match ParsePacket(link.version, pkt) {
        case Tcp(s) =>
          if s.dst in connections {
            ghost var o := KnownOutcome(View(), s, userAlive);
            KnownPort(s, userAlive, o);
          } else {
            UnknownPort(s);
          }
        case _ =>
      }
    }

    method ResetOne(sport: U16)
      requires Valid() && sport in connections
      modifies this`connections, this`replies, link, connections[sport]
      ensures Valid() && View() == MuxSpec.ResetEntry(old(View()), sport)
      ensures connections.Keys == old(connections.Keys) - {sport}
      ensures connections.Values <= old(connections.Values)
    {
      var conn := connections[sport];
      ghost var m := View();
      ghost var o := ResetAndRemove(link.writer, [], conn.View(), ShutDown);
      var _ := link.SendTcp(conn, RST, []);
      OneChanged(sport);
      Settle(sport, true, o, m);
    }

    /** Best-effort RST for every entry, then teardown; `order` is the order in which the table
        yielded its ports. */
    method Shutdown() returns (ghost order: seq<U16>)
      requires Valid()
      modifies this, link, connections.Values
      ensures Valid() && connections == map[]
      ensures View() == MuxSpec.OnShutdown(old(View()), order)
      ensures forall p :: p in order <==> p in old(connections)
      ensures forall i, j :: 0 <= i < j < |order| ==> order[i] != order[j]
    {
      order := [];
      ghost var m, all := View(), connections.Keys;
      var todo := connections.Keys;
      while todo != {}
        invariant Valid() && connections.Keys == todo
        invariant View() == MuxSpec.OnShutdown(m, order)
        invariant connections.Values <= old(connections.Values)
        invariant Visited(order, all, todo)
      {
        var sport :| sport in todo;
        VisitOne(order, all, todo, sport);
        ResetOne(sport);
        todo := todo - {sport};
        MuxSpec.ShutdownSnoc(m, order, sport);
        order := order + [sport];
      }
    }
  }

  /** `order` has each port of `all` that is not in `todo` once. */
  ghost predicate Visited(order: seq<U16>, all: set<U16>, todo: set<U16>) {
    && (forall p :: p in order <==> p in all && p !in todo)
    && (forall i, j :: 0 <= i < j < |order| ==> order[i] != order[j])
    && todo <= all
  }

  lemma VisitOne(order: seq<U16>, all: set<U16>, todo: set<U16>, p: U16)
    requires Visited(order, all, todo) && p in todo
    ensures Visited(order + [p], all, todo - {p})
  {
  }

  lemma ConnectDone(m: MuxSpec.Mux, dport: U16)
    ensures var m', c := MuxSpec.OnConnect(m, dport), Fresh(m.connects, m.nextPort, dport);
            && m'.nextPort == NextPort(m.nextPort) && m'.connects == m.connects + 1
            && m'.writer == SendWriter(m.writer, [])
            && m'.segs == m.segs + SendSegs(m.writer, c, SYN, [])
            && m'.table == (if SendOk(m.writer, []) then m.table[m.nextPort := c] else m.table)
            && m'.replies == m.replies + if SendOk(m.writer, []) then [] else [Answer(m.connects, false)]
  {
    assert m.segs + [] == m.segs;
  }

  lemma DataDone(w: Writer, c: Conn, bytes: Bytes, f: Flushed, c': Conn)
    requires c.state.Connected? && f == Flush(w, c.(pending := c.pending + bytes))
    requires c' == if f.ok && |f.conn.pending| > TX_HIGH_WATER then f.conn.(txPause := true) else f.conn
    ensures var o := ClientData(w, c, bytes);
            f.w == o.w && f.segs == o.segs && Due(!f.ok, c', o)
  {
  }

  lemma CloseDone(w: Writer, c: Conn, f: Flushed, gone: bool)
    requires c.state.Connected? && f == Flush(w, c.(clientClosed := true))
    requires gone == (!f.ok || f.conn.pending == [])
    ensures var o := ClientClose(w, c);
            && o.w == (if gone then SendWriter(f.w, []) else f.w)
            && o.segs == f.segs + (if gone then SendSegs(f.w, f.conn, RST, []) else [])
            && Due(gone, f.conn, o)
  {
    assert f.segs + [] == f.segs;
  }

  lemma FlushAndCloseDone(w: Writer, c: Conn, f: Flushed)
    requires f == Flush(w, c)
    ensures var o := FlushAndClose(w, [], c, []);
            var finished := f.ok && f.conn.clientClosed && f.conn.pending == [];
            && o.w == (if finished then SendWriter(f.w, []) else f.w)
            && o.segs == f.segs + (if finished then SendSegs(f.w, f.conn, RST, []) else [])
            && Due(finished && SendOk(f.w, []), f.conn, o)
  {
    assert [] + f.segs == f.segs && f.segs + [] == f.segs;
  }

  /** Payload that can be delivered is acknowledged first; the rest is FlushAndClose. */
  lemma AckDone(w: Writer, c: Conn, payload: Bytes)
    requires payload != [] && c.rxTx
    ensures var len := |payload| % 0x1_0000_0000;
            var c1 := c.(rxBuffered := SatAdd32(c.rxBuffered, len), txAck := Add32(c.txAck, len));
            var o := AckSegment(w, c, payload, true);
            && o.deliver == [payload]
            && (!SendOk(w, []) ==>
                  o.w == SendWriter(w, []) && o.segs == [] && o.fate.Stay? && o.conn == c1 && o.replies == [])
            && (SendOk(w, []) ==>
                  var o0 := FlushAndClose(SendWriter(w, []), [], c1, []);
                  o.w == o0.w && o.segs == [SegOf(c1, ACK, [])] + o0.segs && o.fate == o0.fate && o.conn == o0.conn
                  && o.replies == o0.replies)
  {
    var len := |payload| % 0x1_0000_0000;
    var c1 := c.(rxBuffered := SatAdd32(c.rxBuffered, len), txAck := Add32(c.txAck, len));
    FlushAndClosePrefix(SendWriter(w, []), [SegOf(c1, ACK, [])], c1, [payload]);
  }
}
