/** Every step of one connection keeps `Lane.Inv`. */
module LaneProofs {
  import opened Prelude
  import opened Codec
  import opened ConnSpec
  import opened Lane

  // ---- what the handlers of a connected entry have in common -------------------------------

  /** The frames of outcome `o`, from connection `c` with its counters already updated. */
  predicate Sends(w: Writer, c: Conn, o: Outcome) {
    && DataOf(o.segs) <= c.pending
    && Numbered(o.segs, c.txSeq)
    && (forall s :: s in o.segs ==> s.ack == c.txAck && s.window == WindowField(c.rxBuffered))
    && (CanSend(o.w) ==> CanSend(w))
    && (o.segs != [] ==> CanSend(w))
    && (o.fate.Stay? ==> forall s :: s in o.segs ==> s.flags == ACK)
  }

  /** The connection of outcome `o`: only `pending` and `txSeq` move, together, as far as the
      window allows; a connection that goes is torn down. */
  predicate Moves(c: Conn, o: Outcome) {
    && o.conn == c.(txSeq := o.conn.txSeq, pending := o.conn.pending, txPause := o.conn.txPause,
                    resumePermit := o.conn.resumePermit, state := o.conn.state, rxTx := o.conn.rxTx,
                    reply := o.conn.reply)
    && |o.conn.pending| <= |c.pending|
    && (o.fate.Stay? ==> o.conn.state == c.state && o.conn.rxTx == c.rxTx && o.conn.reply == c.reply)
    && (o.fate.Gone? ==> o.conn.state.Dead? && !o.conn.rxTx && !o.conn.reply)
    && (CanSend(o.w) && o.fate.Stay? ==>
          var n := |DataOf(o.segs)|;
          && n <= |c.pending|
          && o.conn.txSeq == Add32(c.txSeq, n) && o.conn.pending == c.pending[n..]
          && InFlight(o.conn) == InFlight(c) + n
          && (0 < n ==> InFlight(o.conn) <= c.rxWin)
          && (o.conn.pending == [] || InFlight(o.conn) >= c.rxWin))
    && (o.fate == Gone(Drained) ==> DataOf(o.segs) == c.pending && c.clientClosed)
  }

  /** A connection whose client has closed stays only while bytes are still unsent. */
  predicate Lingers(o: Outcome) {
    CanSend(o.w) && o.fate.Stay? && o.conn.clientClosed ==> o.conn.pending != []
  }

  /** The pause flag of outcome `o`, up to the high-water test of the client-data arm. */
  predicate Gates(c: Conn, o: Outcome) {
    && (c.resumePermit ==> o.conn.resumePermit)
    && (c.txPause && !o.conn.txPause ==> o.conn.resumePermit && |o.conn.pending| < TX_LOW_WATER)
    && (o.conn.txPause ==> c.txPause)
    && (CanSend(o.w) && o.fate.Stay? && o.conn.txPause ==> |o.conn.pending| >= TX_LOW_WATER)
  }

  lemma FlushKeeps(w: Writer, c: Conn)
    ensures var r := Flush(w, c);
            var o := Outcome(r.w, r.segs, r.conn, Stay, [], []);
            Sends(w, c, o) && Moves(c, o) && Gates(c, o)
            && (r.ok <== CanSend(r.w))
            && (r.ok && r.conn.pending == [] ==> DataOf(r.segs) == c.pending)
  {
    FlushSends(w, c);
    FlushNumbers(w, c);
    FlushStaysInWindow(w, c);
    FlushFails(w, c);
    if FlushLoop(w, c).ok {
      FlushMoves(w, c);
      FlushEnds(w, c);
    }
  }

  lemma NextNumber(w: Writer, c: Conn)
    requires Flush(w, c).ok
    ensures var r := Flush(w, c);
            && r.conn.txSeq == (c.txSeq + |DataOf(r.segs)|) % 0x1_0000_0000
            && r.conn.txAck == c.txAck && r.conn.rxBuffered == c.rxBuffered
  {
    FlushMoves(w, c);
  }

  /** Appending a bare RST or ACK from the flushed connection. */
  lemma SendsAfter(w: Writer, c: Conn, r: Flushed, flags: Byte)
    requires r == Flush(w, c)
    ensures var segs := r.segs + SendSegs(r.w, r.conn, flags, []);
            && DataOf(segs) == DataOf(r.segs)
            && (r.ok ==> Numbered(segs, c.txSeq))
            && (r.ok ==> forall s :: s in segs ==> s.ack == c.txAck && s.window == WindowField(c.rxBuffered))
            && (!r.ok ==> segs == r.segs)
  {
    FlushKeeps(w, c);
    if r.ok && CanSend(r.w) {
      var s := SegOf(r.conn, flags, []);
      NextNumber(w, c);
      DataOfSnoc(r.segs, s);
      NumberedSnoc(r.segs, s, c.txSeq);
    } else {
      assert r.segs + [] == r.segs;
    }
  }

  lemma CloseKeeps(w: Writer, c: Conn)
    requires c.state.Connected?
    ensures var c1, o := c.(clientClosed := true), ClientClose(w, c);
            Sends(w, c1, o) && Moves(c1, o) && Gates(c1, o) && Lingers(o)
  {
    var c1 := c.(clientClosed := true);
    FlushKeeps(w, c1);
    SendsAfter(w, c1, Flush(w, c1), RST);
  }

  lemma DataKeeps(w: Writer, c: Conn, bytes: Bytes)
    requires c.state.Connected?
    ensures var c1, o := c.(pending := c.pending + bytes), ClientData(w, c, bytes);
            && Sends(w, c1, o) && Moves(c1, o)
            && (o.fate.Stay? && o.conn.txPause && !c.txPause ==> |o.conn.pending| > TX_HIGH_WATER)
            && (o.fate.Stay? && !o.conn.txPause ==> |o.conn.pending| <= TX_HIGH_WATER)
            && (c.resumePermit ==> o.conn.resumePermit)
            && (c.txPause && !o.conn.txPause ==> o.conn.resumePermit)
            && (CanSend(o.w) && o.fate.Stay? && o.conn.txPause ==> |o.conn.pending| >= TX_LOW_WATER)
  {
    FlushKeeps(w, c.(pending := c.pending + bytes));
  }

  lemma FlushAndCloseSends(w: Writer, c: Conn)
    requires c.state.Connected?
    ensures Sends(w, c, FlushAndClose(w, [], c, []))
  {
    FlushKeeps(w, c);
    SendsAfter(w, c, Flush(w, c), RST);
    assert [] + Flush(w, c).segs == Flush(w, c).segs;
  }

  lemma FlushAndCloseKeeps(w: Writer, c: Conn)
    requires c.state.Connected?
    ensures var o := FlushAndClose(w, [], c, []);
            Sends(w, c, o) && Moves(c, o) && Gates(c, o) && Lingers(o)
  {
    FlushAndCloseSends(w, c);
    var r := Flush(w, c);
    FlushKeeps(w, c);
    DataOfAppend(r.segs, SendSegs(r.w, r.conn, RST, []));
    assert [] + r.segs == r.segs;
  }

  /** The connection with an ACK segment's payload already counted. */
  function Counted(c: Conn, payload: Bytes): Conn {
    var len := |payload| % 0x1_0000_0000;
    c.(rxBuffered := SatAdd32(c.rxBuffered, len), txAck := Add32(c.txAck, len))
  }

  /** A bare ACK put in front changes neither the data nor the numbering. */
  lemma AckInFront(w: Writer, c: Conn, o0: Outcome, o: Outcome)
    requires c.state.Connected? && CanSend(w)
    requires Sends(SendWriter(w, []), c, o0)
    requires o == o0.(segs := [SegOf(c, ACK, [])] + o0.segs, deliver := o.deliver)
    ensures Sends(w, c, o) && DataOf(o.segs) == DataOf(o0.segs)
  {
    assert o.segs[1..] == o0.segs;
  }

  lemma AckFirst(w: Writer, c1: Conn, payload: Bytes)
    requires c1.state.Connected? && CanSend(w)
    ensures var o0 := FlushAndClose(SendWriter(w, []), [], c1, []);
            var o := FlushAndClose(SendWriter(w, []), [SegOf(c1, ACK, [])], c1, [payload]);
            && o == o0.(segs := [SegOf(c1, ACK, [])] + o0.segs, deliver := [payload])
            && Sends(w, c1, o) && DataOf(o.segs) == DataOf(o0.segs)
  {
    var w1 := SendWriter(w, []);
    var first := [SegOf(c1, ACK, [])];
    FlushAndCloseSends(w1, c1);
    FlushAndClosePrefix(w1, first, c1, [payload]);
    AckInFront(w, c1, FlushAndClose(w1, [], c1, []), FlushAndClose(w1, first, c1, [payload]));
  }

  lemma AckKeeps(w: Writer, c: Conn, payload: Bytes)
    requires c.state.Connected? && c.rxTx && payload != []
    ensures var c1, o := Counted(c, payload), AckSegment(w, c, payload, true);
            && Sends(w, c1, o) && Moves(c1, o) && Gates(c1, o) && Lingers(o)
            && o.deliver == [payload] && (CanSend(o.w) ==> o.segs != [])
  {
    var c1 := Counted(c, payload);
    if CanSend(w) {
      AckFirst(w, c1, payload);
      FlushAndCloseKeeps(SendWriter(w, []), c1);
    }
  }

  // ---- the parts of the invariant, for any outcome of that shape ---------------------------

  /** The state in which a handler of a linked connection sends: `l` with the event's own bytes
      already counted, `c` the connection with its counters updated. */
  predicate Ready(l: Lane, w: Writer, c: Conn) {
    && Linked(l) && |l.sent| >= 1 && l.sent[0].payload == []
    && Numbered(l.sent[1..], 1)
    && DataOf(l.sent) <= l.accepted
    && (CanSend(w) ==> DataOf(l.sent) + c.pending == l.accepted && c.txSeq == SentCount(l) % 0x1_0000_0000)
  }

  lemma PrefixMoves(sent: Bytes, now: Bytes, pending: Bytes, whole: Bytes)
    requires now <= pending && sent + pending == whole
    ensures sent + now <= whole
    ensures sent + now + pending[|now|..] == whole
    ensures now == pending ==> sent + now == whole
  {
    assert pending == now + pending[|now|..];
  }

  lemma StreamKept(l: Lane, w: Writer, c: Conn, o: Outcome)
    requires Ready(l, w, c) && Sends(w, c, o) && Moves(c, o)
    ensures var l2 := Record(l, o);
            && DataOf(l2.sent) == DataOf(l.sent) + DataOf(o.segs)
            && DataOf(l2.sent) <= l2.accepted
            && (CanSend(o.w) && o.fate.Stay? ==> DataOf(l2.sent) + o.conn.pending == l2.accepted)
            && (o.fate == Gone(Drained) && o.segs != [] ==> DataOf(l2.sent) == l2.accepted)
  {
    DataOfAppend(l.sent, o.segs);
    if CanSend(w) {
      PrefixMoves(DataOf(l.sent), DataOf(o.segs), c.pending, l.accepted);
    } else {
      assert DataOf(l.sent) + [] == DataOf(l.sent);
    }
  }

  lemma NumberingKept(l: Lane, w: Writer, c: Conn, o: Outcome)
    requires Ready(l, w, c) && Sends(w, c, o)
    ensures Numbered((l.sent + o.segs)[1..], 1)
  {
    var head := l.sent[1..];
    assert (l.sent + o.segs)[1..] == head + o.segs;
    assert DataOf(l.sent) == DataOf(head);
    if CanSend(w) {
      NumberedAppend(head, o.segs, 1);
      NumberedShift(o.segs, c.txSeq, SentCount(l));
    } else {
      assert head + [] == head;
    }
  }

  lemma OutboundKept(l: Lane, w: Writer, c: Conn, o: Outcome)
    requires Ready(l, w, c) && Sends(w, c, o) && Moves(c, o)
    ensures var l2 := Record(l, o);
            && DataOf(l2.sent) == DataOf(l.sent) + DataOf(o.segs)
            && DataOf(l2.sent) <= l2.accepted
            && Numbered(l2.sent[1..], 1)
            && (CanSend(o.w) && o.fate.Stay? ==>
                  DataOf(l2.sent) + o.conn.pending == l2.accepted && o.conn.txSeq == SentCount(l2) % 0x1_0000_0000)
            && (o.fate == Gone(Drained) && o.segs != [] ==> DataOf(l2.sent) == l2.accepted)
  {
    StreamKept(l, w, c, o);
    NumberingKept(l, w, c, o);
    Add32Mod(SentCount(l), |DataOf(o.segs)|);
  }

  /** The device's acknowledgement `l.acked` is what `c.rxAck` says, and in range. */
  predicate Acked(l: Lane, c: Conn) {
    l.acked <= SentCount(l) <= l.acked + MAX_WINDOW && c.rxAck == l.acked % 0x1_0000_0000
  }

  lemma SendWindowKept(l: Lane, w: Writer, c: Conn, o: Outcome)
    requires Ready(l, w, c) && Sends(w, c, o) && Moves(c, o)
    requires c.rxWin <= MAX_WINDOW
    requires CanSend(w) && l.ackHonest ==> Acked(l, c)
    requires c.state.Connected?
    ensures SendWindow(Record(l, o), CanSend(o.w))
  {
    OutboundKept(l, w, c, o);
    if CanSend(o.w) && o.fate.Stay? && l.ackHonest {
      Sub32Exact(SentCount(l), l.acked);
    }
  }

  lemma UpdatedKept(l: Lane, w: Writer, c: Conn, o: Outcome)
    requires Ready(l, w, c) && Sends(w, c, o) && Moves(c, o)
    requires CanSend(o.w) && o.segs == [] ==>
               Updated(l, true) && c.txAck == l.conn.txAck && c.rxBuffered == l.conn.rxBuffered
    ensures Updated(Record(l, o), CanSend(o.w))
  {
    if CanSend(o.w) && o.fate.Stay? && o.segs != [] {
      var last := o.segs[|o.segs| - 1];
      assert (l.sent + o.segs)[|l.sent + o.segs| - 1] == last;
      assert last in o.segs;
    } else {
      assert o.segs == [] ==> l.sent + o.segs == l.sent;
    }
  }

  lemma WellFormedKept(l: Lane, w: Writer, c: Conn, o: Outcome, data: seq<Option<Bytes>>, drains: seq<nat>)
    requires WellFormed(l, data, drains)
    requires Ready(l, w, c) && Sends(w, c, o) && Moves(c, o)
    requires c.state == l.conn.state && c.reply == l.conn.reply && c.rxTx == l.conn.rxTx
    ensures forall data', drains' :: WellFormed(Record(l, o), data', drains')
  {
    var l2 := Record(l, o);
    assert l2.sent[0] == l.sent[0];
    if o.segs == [] {
      assert l2.sent == l.sent;
    } else {
      assert l2.sent[|l2.sent| - 1] in o.segs;
    }
  }

  lemma OutboundAll(l: Lane, w: Writer, c: Conn, o: Outcome, data: seq<Option<Bytes>>)
    requires Ready(l, w, c) && Sends(w, c, o) && Moves(c, o) && c.state.Connected?
    requires l.accepted + Payloads(Pipeline(l, data)) == l.pumped
    ensures Outbound(Record(l, o), data, CanSend(o.w))
  {
    OutboundKept(l, w, c, o);
  }

  /** A handler that delivers nothing leaves the inbound side alone. */
  lemma InboundQuiet(l: Lane, w: Writer, c: Conn, o: Outcome, drains: seq<nat>)
    requires Ready(l, w, c) && Sends(w, c, o) && Moves(c, o) && c.state.Connected?
    requires o.deliver == [] && c.txAck == l.conn.txAck && c.rxBuffered == l.conn.rxBuffered
    requires Inbound(l, drains, CanSend(w))
    ensures Inbound(Record(l, o), drains, CanSend(o.w))
  {
    assert l.rxQ + [] == l.rxQ && l.inbound + [] == l.inbound;
  }

  /** The end of the stream is only ever behind everything the pump has read. */
  lemma ClosingKept(l: Lane, w: Writer, c: Conn, o: Outcome, data: seq<Option<Bytes>>)
    requires Ready(l, w, c) && Sends(w, c, o) && Moves(c, o) && c.state.Connected?
    requires l.why != Some(Drained) && !EndsInRst(l)
    requires var line := Pipeline(l, data);
             && (forall i :: 0 <= i < |line| && line[i].None? ==> i == |line| - 1)
             && (line != [] && line[|line| - 1].None? ==> AtEof(l) && (l.pump.Holding? || l.pump.PumpDone?))
             && (c.clientClosed ==> line == [] && AtEof(l) && l.pump.PumpDone? && l.accepted == l.pumped)
    requires Lingers(o)
    ensures Closing(Record(l, o), data, CanSend(o.w))
  {
    OutboundKept(l, w, c, o);
    if o.segs == [] {
      assert l.sent + o.segs == l.sent;
    }
  }

  // ---- messages from the pump --------------------------------------------------------------

  function Taken(msg: Option<Bytes>): Bytes {
    if msg.Some? then msg.value else []
  }

  /** A message of the pump's, `Some(bytes)` or the closing `None`, reaches the mux task. */
  lemma MessageReady(l: Lane, w: Writer, msg: Option<Bytes>, data: seq<Option<Bytes>>, drains: seq<nat>)
    requires l.inTable && Inv(l, [msg] + data, drains, CanSend(w))
    ensures Linked(l) && !l.conn.clientClosed
    ensures Ready(l.(accepted := l.accepted + Taken(msg)), w, l.conn.(pending := l.conn.pending + Taken(msg)))
    ensures l.accepted + Taken(msg) + Payloads(Pipeline(l, data)) == l.pumped
    ensures Pipeline(l, [msg] + data) == [msg] + Pipeline(l, data)
  {
    assert Pipeline(l, [msg] + data) == [msg] + Pipeline(l, data);
    assert ([msg] + Pipeline(l, data))[1..] == Pipeline(l, data);
    assert DataOf(l.sent) + (l.conn.pending + Taken(msg)) == DataOf(l.sent) + l.conn.pending + Taken(msg);
  }

  lemma LineShrinks(l: Lane, msg: Option<Bytes>, data: seq<Option<Bytes>>)
    ensures var line, line' := Pipeline(l, [msg] + data), Pipeline(l, data);
            && line == [msg] + line'
            && (forall i :: 0 <= i < |line'| ==> line'[i] == line[i + 1])
            && (forall m :: m in line' ==> m in line)
  {
  }

  /** The message that is processed was counted in the line, and was no longer than a payload. */
  lemma DataLine(l: Lane, bytes: Bytes, data: seq<Option<Bytes>>, alive: bool)
    requires Gate(l, [Some(bytes)] + data, alive)
    ensures 0 < |bytes| <= MAX_PAYLOAD
    ensures forall m :: m in Pipeline(l, data) && m.Some? ==> 0 < |m.value| <= MAX_PAYLOAD
    ensures l.inTable && l.conn.txPause ==>
              |l.conn.pending| + |bytes| + MAX_PAYLOAD * (|data| + InHand(l.pump)) <= TX_HIGH_WATER + 66 * MAX_PAYLOAD
  {
    LineShrinks(l, Some(bytes), data);
    assert Pipeline(l, [Some(bytes)] + data)[0] == Some(bytes);
  }

  lemma DataGate(l: Lane, w: Writer, bytes: Bytes, data: seq<Option<Bytes>>)
    requires Linked(l) && |data| <= 64
    requires Gate(l, [Some(bytes)] + data, CanSend(w))
    ensures Gate(OnMessage(l, w, Some(bytes)), data, CanSend(ClientData(w, l.conn, bytes).w))
  {
    DataKeeps(w, l.conn, bytes);
    DataLine(l, bytes, data, CanSend(w));
  }

  lemma DataForm(l: Lane, w: Writer, bytes: Bytes, data: seq<Option<Bytes>>, drains: seq<nat>)
    requires l.inTable
    requires Inv(l, [Some(bytes)] + data, drains, CanSend(w))
    ensures WellFormed(OnMessage(l, w, Some(bytes)), data, drains)
  {
    MessageReady(l, w, Some(bytes), data, drains);
    DataKeeps(w, l.conn, bytes);
    var l1 := l.(accepted := l.accepted + bytes);
    var c := l.conn.(pending := l.conn.pending + bytes);
    WellFormedKept(l1, w, c, ClientData(w, l.conn, bytes), [Some(bytes)] + data, drains);
  }

  lemma DataOutward(l: Lane, w: Writer, bytes: Bytes, data: seq<Option<Bytes>>, drains: seq<nat>)
    requires l.inTable
    requires Inv(l, [Some(bytes)] + data, drains, CanSend(w))
    ensures var l2, alive := OnMessage(l, w, Some(bytes)), CanSend(ClientData(w, l.conn, bytes).w);
            Outbound(l2, data, alive) && Closing(l2, data, alive)
  {
    var o := ClientData(w, l.conn, bytes);
    MessageReady(l, w, Some(bytes), data, drains);
    DataKeeps(w, l.conn, bytes);
    var l1 := l.(accepted := l.accepted + bytes);
    var c := l.conn.(pending := l.conn.pending + bytes);
    OutboundAll(l1, w, c, o, data);
    LineShrinks(l, Some(bytes), data);
    ClosingKept(l1, w, c, o, data);
  }

  lemma DataInward(l: Lane, w: Writer, bytes: Bytes, data: seq<Option<Bytes>>, drains: seq<nat>)
    requires l.inTable
    requires Inv(l, [Some(bytes)] + data, drains, CanSend(w))
    ensures var l2, alive := OnMessage(l, w, Some(bytes)), CanSend(ClientData(w, l.conn, bytes).w);
            Inbound(l2, drains, alive) && Updated(l2, alive) && SendWindow(l2, alive)
  {
    var o := ClientData(w, l.conn, bytes);
    MessageReady(l, w, Some(bytes), data, drains);
    DataKeeps(w, l.conn, bytes);
    var l1 := l.(accepted := l.accepted + bytes);
    var c := l.conn.(pending := l.conn.pending + bytes);
    InboundQuiet(l1, w, c, o, drains);
    UpdatedKept(l1, w, c, o);
    SendWindowKept(l1, w, c, o);
  }

  lemma DataStep(l: Lane, w: Writer, bytes: Bytes, data: seq<Option<Bytes>>, drains: seq<nat>)
    requires l.inTable && |data| <= 64
    requires Inv(l, [Some(bytes)] + data, drains, CanSend(w))
    ensures Inv(OnMessage(l, w, Some(bytes)), data, drains, CanSend(ClientData(w, l.conn, bytes).w))
  {
    MessageReady(l, w, Some(bytes), data, drains);
    DataForm(l, w, bytes, data, drains);
    DataOutward(l, w, bytes, data, drains);
    DataGate(l, w, bytes, data);
    DataInward(l, w, bytes, data, drains);
  }

  lemma CloseGate(l: Lane, w: Writer, data: seq<Option<Bytes>>)
    requires Linked(l)
    requires Gate(l, [None] + data, CanSend(w))
    ensures Gate(OnMessage(l, w, None), data, CanSend(ClientClose(w, l.conn).w))
  {
    CloseKeeps(w, l.conn);
    LineShrinks(l, None, data);
  }

  lemma CloseOutward(l: Lane, w: Writer, data: seq<Option<Bytes>>, drains: seq<nat>)
    requires l.inTable
    requires Inv(l, [None] + data, drains, CanSend(w))
    ensures var l2, alive := OnMessage(l, w, None), CanSend(ClientClose(w, l.conn).w);
            WellFormed(l2, data, drains) && Outbound(l2, data, alive) && Closing(l2, data, alive)
  {
    var o := ClientClose(w, l.conn);
    CloseReady(l, w, data, drains);
    CloseKeeps(w, l.conn);
    var c := l.conn.(clientClosed := true);
    WellFormedKept(l, w, c, o, [None] + data, drains);
    OutboundAll(l, w, c, o, data);
    ClosingKept(l, w, c, o, data);
  }

  lemma CloseReady(l: Lane, w: Writer, data: seq<Option<Bytes>>, drains: seq<nat>)
    requires l.inTable
    requires Inv(l, [None] + data, drains, CanSend(w))
    ensures Linked(l) && Ready(l, w, l.conn.(clientClosed := true))
    ensures Pipeline(l, data) == [] && l.accepted == l.pumped && AtEof(l) && l.pump.PumpDone?
  {
    MessageReady(l, w, None, data, drains);
    assert l.conn.pending + [] == l.conn.pending && l.accepted + [] == l.accepted;
    assert l.(accepted := l.accepted + []) == l;
    LineShrinks(l, None, data);
    assert Pipeline(l, data) == [] by {
      assert Pipeline(l, [None] + data)[0].None?;
    }
  }

  lemma CloseInward(l: Lane, w: Writer, data: seq<Option<Bytes>>, drains: seq<nat>)
    requires l.inTable
    requires Inv(l, [None] + data, drains, CanSend(w))
    ensures var l2, alive := OnMessage(l, w, None), CanSend(ClientClose(w, l.conn).w);
            Inbound(l2, drains, alive) && Updated(l2, alive) && SendWindow(l2, alive)
  {
    var o := ClientClose(w, l.conn);
    CloseReady(l, w, data, drains);
    CloseKeeps(w, l.conn);
    var c := l.conn.(clientClosed := true);
    InboundQuiet(l, w, c, o, drains);
    UpdatedKept(l, w, c, o);
    SendWindowKept(l, w, c, o);
  }

  lemma CloseStep(l: Lane, w: Writer, data: seq<Option<Bytes>>, drains: seq<nat>)
    requires l.inTable
    requires Inv(l, [None] + data, drains, CanSend(w))
    ensures Inv(OnMessage(l, w, None), data, drains, CanSend(ClientClose(w, l.conn).w))
  {
    CloseReady(l, w, data, drains);
    CloseOutward(l, w, data, drains);
    CloseGate(l, w, data);
    CloseInward(l, w, data, drains);
  }

  // ---- drain reports -----------------------------------------------------------------------

  function Shrunk(c: Conn, n: U32): Conn {
    c.(rxBuffered := SatSub(c.rxBuffered, n))
  }

  lemma DrainKeeps(l: Lane, w: Writer, n: U32, data: seq<Option<Bytes>>, drains: seq<nat>)
    requires l.inTable
    requires Inv(l, data, [n] + drains, CanSend(w))
    ensures var c, o := Shrunk(l.conn, n), DrainReport(w, l.conn, n);
            && Linked(l) && Ready(l, w, c) && Sends(w, c, o) && Moves(c, o) && Lingers(o) && o.conn == c
  {
    var c, o := Shrunk(l.conn, n), DrainReport(w, l.conn, n);
    assert Add32(c.txSeq, 0) == c.txSeq && c.pending[0..] == c.pending;
  }

  lemma DrainOutward(l: Lane, w: Writer, n: U32, data: seq<Option<Bytes>>, drains: seq<nat>)
    requires l.inTable
    requires Inv(l, data, [n] + drains, CanSend(w))
    ensures var l2, alive := OnDrain(l, w, n), CanSend(DrainReport(w, l.conn, n).w);
            && WellFormed(l2, data, drains) && Outbound(l2, data, alive)
            && Closing(l2, data, alive) && Gate(l2, data, alive)
  {
    var c, o := Shrunk(l.conn, n), DrainReport(w, l.conn, n);
    DrainKeeps(l, w, n, data, drains);
    WellFormedKept(l, w, c, o, data, [n] + drains);
    OutboundAll(l, w, c, o, data);
    ClosingKept(l, w, c, o, data);
  }

  lemma DrainInbound(l: Lane, w: Writer, n: U32, data: seq<Option<Bytes>>, drains: seq<nat>)
    requires l.inTable
    requires Inv(l, data, [n] + drains, CanSend(w))
    ensures Inbound(OnDrain(l, w, n), drains, CanSend(DrainReport(w, l.conn, n).w))
  {
    var o := DrainReport(w, l.conn, n);
    assert Sum([n] + drains) == n + Sum(drains) by {
      assert ([n] + drains)[1..] == drains;
    }
    NothingDelivered(l, o);
    assert Linked(l);
  }

  lemma DrainUpdated(l: Lane, w: Writer, n: U32, data: seq<Option<Bytes>>, drains: seq<nat>)
    requires l.inTable
    requires Inv(l, data, [n] + drains, CanSend(w))
    ensures Updated(OnDrain(l, w, n), CanSend(DrainReport(w, l.conn, n).w))
  {
    var c, o := Shrunk(l.conn, n), DrainReport(w, l.conn, n);
    if o.segs != [] {
      DrainKeeps(l, w, n, data, drains);
      UpdatedKept(l, w, c, o);
    } else {
      assert OnDrain(l, w, n).sent == l.sent;
    }
  }

  /** Reports of bytes that reached the client: the window-update arm. */
  lemma DrainStep(l: Lane, w: Writer, n: U32, data: seq<Option<Bytes>>, drains: seq<nat>)
    requires l.inTable
    requires Inv(l, data, [n] + drains, CanSend(w))
    ensures Inv(OnDrain(l, w, n), data, drains, CanSend(DrainReport(w, l.conn, n).w))
  {
    var c, o := Shrunk(l.conn, n), DrainReport(w, l.conn, n);
    DrainKeeps(l, w, n, data, drains);
    DrainOutward(l, w, n, data, drains);
    DrainInbound(l, w, n, data, drains);
    DrainUpdated(l, w, n, data, drains);
    SendWindowKept(l, w, c, o);
  }

  lemma NothingDelivered(l: Lane, o: Outcome)
    requires o.deliver == []
    ensures Record(l, o).inbound == l.inbound && Record(l, o).rxQ == l.rxQ
  {
    assert l.rxQ + [] == l.rxQ && l.inbound + [] == l.inbound;
  }

  // ---- segments from the device ------------------------------------------------------------

  lemma TrueAckMeans(l: Lane, ack: U32)
    ensures l.acked <= TrueAck(l, ack) && TrueAck(l, ack) % 0x1_0000_0000 == ack
  {
    var d := Sub32(ack, l.acked % 0x1_0000_0000);
    assert (l.acked + d - ack) % 0x1_0000_0000 == 0;
  }

  function Heard(c: Conn, s: Seg): Conn {
    c.(rxSeq := s.seq_, rxAck := s.ack, rxWin := s.window * 256)
  }

  /** `l1` is `l` with only the verdict on the device changed. */
  predicate Rejudged(l: Lane, l1: Lane) {
    l1 == l.(acked := l1.acked, ackHonest := l1.ackHonest, winHonest := l1.winHonest)
  }

  /** A segment that ends the connection without an answer. */
  lemma RemovalStep(l: Lane, l1: Lane, c: Conn, why: Why, replies: seq<Answer>, w: Writer, data: seq<Option<Bytes>>,
                    drains: seq<nat>)
    requires l.inTable && Inv(l, data, drains, CanSend(w)) && why != Drained && Rejudged(l, l1)
    requires c.txPause == l.conn.txPause && c.resumePermit == l.conn.resumePermit
    requires c.pending == l.conn.pending && c.rxBuffered == l.conn.rxBuffered && c.clientClosed == l.conn.clientClosed
    ensures Inv(Record(l1, Outcome(w, [], TearDown(c), Gone(why), replies, [])), data, drains, CanSend(w))
  {
    var o := Outcome(w, [], TearDown(c), Gone(why), replies, []);
    NothingDelivered(l1, o);
    assert l.sent + [] == l.sent;
  }

  lemma BareReset(sent: seq<Seg>, s: Seg)
    requires sent != [] && sent[0].payload == [] && s.payload == []
    ensures DataOf(sent + [s]) == DataOf(sent)
    ensures Numbered(sent[1..], 1) && s.seq_ == (1 + |DataOf(sent)|) % 0x1_0000_0000 ==> Numbered((sent + [s])[1..], 1)
  {
    DataOfSnoc(sent, s);
    var rest := sent[1..];
    assert DataOf(sent) == DataOf(rest);
    assert (sent + [s])[1..] == rest + [s];
    if Numbered(rest, 1) && s.seq_ == (1 + |DataOf(rest)|) % 0x1_0000_0000 {
      NumberedSnoc(rest, s, 1);
    }
  }

  lemma ResetOutbound(l: Lane, l1: Lane, o: Outcome, data: seq<Option<Bytes>>, drains: seq<nat>, alive: bool)
    requires WellFormed(l, data, drains) && Outbound(l, data, alive) && l.inTable && Rejudged(l, l1)
    requires o.fate.Gone? && o.conn.state.Dead?
    requires o.segs == [] || (alive && |o.segs| == 1 && o.segs[0].payload == [] && o.segs[0].seq_ == l.conn.txSeq)
    ensures Outbound(Record(l1, o), data, CanSend(o.w)) && DataOf(l1.sent + o.segs) == DataOf(l.sent)
  {
    if o.segs == [] {
      assert l.sent + o.segs == l.sent;
    } else {
      assert o.segs == [o.segs[0]];
      BareReset(l.sent, o.segs[0]);
    }
  }

  /** A best-effort RST that ends the connection: shutdown, and payload nobody can take. */
  lemma ResetStep(l: Lane, l1: Lane, c: Conn, why: Why, w: Writer, data: seq<Option<Bytes>>, drains: seq<nat>)
    requires l.inTable && Inv(l, data, drains, CanSend(w)) && why != Drained && Rejudged(l, l1)
    requires c == l.conn.(rxSeq := c.rxSeq, rxAck := c.rxAck, rxWin := c.rxWin)
    ensures var o := ResetAndRemove(w, [], c, why);
            Inv(Record(l1, o), data, drains, CanSend(o.w))
  {
    var o := ResetAndRemove(w, [], c, why);
    NothingDelivered(l1, o);
    ResetOutbound(l, l1, o, data, drains, CanSend(w));
  }

  lemma EstablishedOutbound(l: Lane, s: Seg, w: Writer, data: seq<Option<Bytes>>, drains: seq<nat>)
    requires l.inTable && l.conn.state.Connecting? && Inv(l, data, drains, CanSend(w))
    ensures var o := Established(w, Heard(l.conn, s));
            var l2 := Record(Judge(l, s), o);
            WellFormed(l2, data, drains) && Outbound(l2, data, CanSend(o.w)) && SentCount(l2) == 1
  {
    var o := Established(w, Heard(l.conn, s));
    var l2 := Record(Judge(l, s), o);
    NothingDelivered(Judge(l, s), o);
    DataOfAppend(l.sent, o.segs);
    assert l2.sent[0] == l.sent[0];
    if o.segs == [] {
      assert l2.sent == l.sent;
    } else {
      assert (l.sent + o.segs)[1..] == o.segs;
    }
  }

  /** The device accepts: counters at one, pump and forwarder started. */
  lemma EstablishedInbound(l: Lane, s: Seg, w: Writer, data: seq<Option<Bytes>>, drains: seq<nat>)
    requires l.inTable && l.conn.state.Connecting? && Inv(l, data, drains, CanSend(w))
    ensures var o := Established(w, Heard(l.conn, s));
            Inbound(Record(Judge(l, s), o), drains, CanSend(o.w))
  {
    NothingDelivered(Judge(l, s), Established(w, Heard(l.conn, s)));
  }

  lemma EstablishedStep(l: Lane, s: Seg, w: Writer, data: seq<Option<Bytes>>, drains: seq<nat>)
    requires l.inTable && l.conn.state.Connecting? && Inv(l, data, drains, CanSend(w))
    ensures var o := Established(w, Heard(l.conn, s));
            Inv(Record(Judge(l, s), o), data, drains, CanSend(o.w))
  {
    TrueAckMeans(l, s.ack);
    EstablishedOutbound(l, s, w, data, drains);
    EstablishedInbound(l, s, w, data, drains);
  }

  lemma GateKept(l: Lane, w: Writer, c: Conn, o: Outcome, data: seq<Option<Bytes>>)
    requires Linked(l) && Gate(l, data, CanSend(w))
    requires Sends(w, c, o) && Moves(c, o) && Gates(c, o)
    requires c.pending == l.conn.pending && c.txPause == l.conn.txPause && c.resumePermit == l.conn.resumePermit
    requires c.state.Connected?
    ensures Gate(Record(l, o), data, CanSend(o.w))
  {
  }

  /** An ACK segment, judged and with its payload (if any) counted, is ready to be answered. */
  lemma AckReady(l: Lane, s: Seg, w: Writer, c: Conn, data: seq<Option<Bytes>>, drains: seq<nat>)
    requires Linked(l) && Inv(l, data, drains, CanSend(w))
    requires c == Heard(l.conn, s) || c == Counted(Heard(l.conn, s), s.payload)
    ensures var l1 := Judge(l, s);
            && Ready(l1, w, c) && WellFormed(l1, data, drains)
            && (CanSend(w) && l1.ackHonest ==> Acked(l1, c))
            && (c.clientClosed ==> l1.accepted == l1.pumped)
  {
    TrueAckMeans(l, s.ack);
  }

  lemma AckOutward(l: Lane, s: Seg, w: Writer, c: Conn, o: Outcome, data: seq<Option<Bytes>>, drains: seq<nat>)
    requires Linked(l) && Inv(l, data, drains, CanSend(w))
    requires c == Heard(l.conn, s) || c == Counted(Heard(l.conn, s), s.payload)
    requires Sends(w, c, o) && Moves(c, o) && Gates(c, o) && Lingers(o)
    ensures var l2, alive := Record(Judge(l, s), o), CanSend(o.w);
            WellFormed(l2, data, drains) && Outbound(l2, data, alive) && Closing(l2, data, alive)
  {
    var l1 := Judge(l, s);
    AckReady(l, s, w, c, data, drains);
    WellFormedKept(l1, w, c, o, data, drains);
    OutboundAll(l1, w, c, o, data);
    ClosingKept(l1, w, c, o, data);
  }

  lemma AckGates(l: Lane, s: Seg, w: Writer, c: Conn, o: Outcome, data: seq<Option<Bytes>>, drains: seq<nat>)
    requires Linked(l) && Inv(l, data, drains, CanSend(w))
    requires c == Heard(l.conn, s) || c == Counted(Heard(l.conn, s), s.payload)
    requires Sends(w, c, o) && Moves(c, o) && Gates(c, o) && Lingers(o)
    ensures Gate(Record(Judge(l, s), o), data, CanSend(o.w)) && SendWindow(Record(Judge(l, s), o), CanSend(o.w))
  {
    var l1 := Judge(l, s);
    AckReady(l, s, w, c, data, drains);
    GateKept(l1, w, c, o, data);
    SendWindowKept(l1, w, c, o);
  }

  lemma PureAckInbound(l: Lane, s: Seg, w: Writer, data: seq<Option<Bytes>>, drains: seq<nat>)
    requires Linked(l) && Inv(l, data, drains, CanSend(w)) && s.payload == []
    ensures var o := FlushAndClose(w, [], Heard(l.conn, s), []);
            Inbound(Record(Judge(l, s), o), drains, CanSend(o.w))
  {
    var c := Heard(l.conn, s);
    var o := FlushAndClose(w, [], c, []);
    FlushAndCloseKeeps(w, c);
    AckReady(l, s, w, c, data, drains);
    InboundQuiet(Judge(l, s), w, c, o, drains);
  }

  lemma PureAckUpdated(l: Lane, s: Seg, w: Writer, data: seq<Option<Bytes>>, drains: seq<nat>)
    requires Linked(l) && Inv(l, data, drains, CanSend(w)) && s.payload == []
    ensures var o := FlushAndClose(w, [], Heard(l.conn, s), []);
            Updated(Record(Judge(l, s), o), CanSend(o.w))
  {
    var c := Heard(l.conn, s);
    FlushAndCloseKeeps(w, c);
    AckReady(l, s, w, c, data, drains);
    UpdatedKept(Judge(l, s), w, c, FlushAndClose(w, [], c, []));
  }

  lemma PureAckStep(l: Lane, s: Seg, w: Writer, data: seq<Option<Bytes>>, drains: seq<nat>)
    requires Linked(l) && Inv(l, data, drains, CanSend(w)) && s.payload == []
    ensures var o := FlushAndClose(w, [], Heard(l.conn, s), []);
            Inv(Record(Judge(l, s), o), data, drains, CanSend(o.w))
  {
    var c := Heard(l.conn, s);
    var o := FlushAndClose(w, [], c, []);
    FlushAndCloseKeeps(w, c);
    AckOutward(l, s, w, c, o, data, drains);
    AckGates(l, s, w, c, o, data, drains);
    PureAckInbound(l, s, w, data, drains);
    PureAckUpdated(l, s, w, data, drains);
  }

  /** Delivering one payload: the queue grows by it, and so does everything received. */
  lemma DeliveryGrows(l: Lane, o: Outcome, payload: Bytes)
    requires o.deliver == [payload]
    ensures var l2 := Record(l, o);
            l2.inbound == l.inbound + payload && Flatten(l2.rxQ) == Flatten(l.rxQ) + payload
  {
    FlattenSnoc(l.rxQ, payload);
    FlattenSnoc([], payload);
    assert [] + [payload] == [payload];
  }

  lemma CountedAck(received: nat, payload: Bytes)
    ensures Add32((1 + received) % 0x1_0000_0000, |payload| % 0x1_0000_0000)
            == (1 + received + |payload|) % 0x1_0000_0000
  {
  }

  /** Payload within the honest device's window is counted without clipping, and what the window
      field then shows lies within the buffer. */
  lemma NoClip(buffered: U32, payload: Bytes, edge: nat, inbound: nat)
    requires inbound + |payload| <= edge && edge + buffered <= inbound + RX_WINDOW
    ensures SatAdd32(buffered, |payload| % 0x1_0000_0000) == buffered + |payload| <= RX_WINDOW
    ensures WindowField(buffered + |payload|) * 256 <= RX_WINDOW - buffered - |payload|
  {
  }

  lemma PayloadStream(l: Lane, s: Seg, o: Outcome)
    requires l.received <= l.inbound && o.deliver == [s.payload]
    requires FwdAlive(l) ==> l.received + FwdHand(l.fwd) + Flatten(l.rxQ) == l.inbound
    ensures var l2 := Record(Judge(l, s), o);
            && l2.received <= l2.inbound && |l2.inbound| == |l.inbound| + |s.payload|
            && (l.conn.state.Connected? && FwdAlive(l) ==>
                  l2.received + FwdHand(l2.fwd) + Flatten(l2.rxQ) == l2.inbound)
            && |Flatten(l2.rxQ)| == |Flatten(l.rxQ)| + |s.payload|
  {
    DeliveryGrows(Judge(l, s), o, s.payload);
    assert l.received + FwdHand(l.fwd) + (Flatten(l.rxQ) + s.payload)
        == l.received + FwdHand(l.fwd) + Flatten(l.rxQ) + s.payload;
  }

  /** It moves the right edge and the bytes received by the same amount. */
  lemma PayloadInbound(l: Lane, s: Seg, w: Writer, c: Conn, o: Outcome, drains: seq<nat>)
    requires Linked(l) && Inbound(l, drains, CanSend(w)) && FwdAlive(l)
    requires c == Counted(Heard(l.conn, s), s.payload)
    requires (CanSend(o.w) ==> CanSend(w)) && o.deliver == [s.payload]
    requires o.conn.rxBuffered == c.rxBuffered && o.conn.txAck == c.txAck
    requires o.fate.Stay? ==> o.conn.state.Connected?
    ensures Inbound(Record(Judge(l, s), o), drains, CanSend(o.w))
  {
    PayloadStream(l, s, o);
    CountedAck(|l.inbound|, s.payload);
    if l.winHonest && HonestWindow(l, s) {
      NoClip(l.conn.rxBuffered, s.payload, l.edge, |l.inbound|);
    }
  }

  lemma PayloadStep(l: Lane, s: Seg, w: Writer, data: seq<Option<Bytes>>, drains: seq<nat>)
    requires Linked(l) && Inv(l, data, drains, CanSend(w)) && s.payload != [] && FwdAlive(l)
    ensures var o := AckSegment(w, Heard(l.conn, s), s.payload, true);
            Inv(Record(Judge(l, s), o), data, drains, CanSend(o.w))
  {
    var c := Counted(Heard(l.conn, s), s.payload);
    var o := AckSegment(w, Heard(l.conn, s), s.payload, true);
    AckKeeps(w, Heard(l.conn, s), s.payload);
    AckReady(l, s, w, c, data, drains);
    AckOutward(l, s, w, c, o, data, drains);
    AckGates(l, s, w, c, o, data, drains);
    PayloadInbound(l, s, w, c, o, drains);
    UpdatedKept(Judge(l, s), w, c, o);
  }

  lemma AckStep(l: Lane, s: Seg, w: Writer, data: seq<Option<Bytes>>, drains: seq<nat>)
    requires Linked(l) && Inv(l, data, drains, CanSend(w))
    ensures var o := AckSegment(w, Heard(l.conn, s), s.payload, FwdAlive(l));
            Inv(Record(Judge(l, s), o), data, drains, CanSend(o.w))
  {
    if s.payload == [] {
      PureAckStep(l, s, w, data, drains);
    } else if FwdAlive(l) {
      PayloadStep(l, s, w, data, drains);
    } else {
      ResetStep(l, Judge(l, s), Heard(l.conn, s), UserGone, w, data, drains);
    }
  }

  /** handle_incoming has three ways to go: accept, answer an ACK, or remove. */
  lemma SegmentCases(w: Writer, c: Conn, s: Seg, alive: bool)
    requires !c.state.Dead?
    ensures var o := Segment(w, c, s, alive);
            || (c.state.Connecting? && o == Established(w, Heard(c, s)))
            || (c.state.Connected? && o == AckSegment(w, Heard(c, s), s.payload, alive))
            || (o.fate.Gone? && o.fate.why != Drained
                && o == Outcome(w, [], TearDown(Heard(c, s)), o.fate, FailReply(Heard(c, s)), []))
  {
  }

  /** Any segment at all from the device, honest or not. */
  lemma SegmentStep(l: Lane, s: Seg, w: Writer, data: seq<Option<Bytes>>, drains: seq<nat>)
    requires l.inTable && Inv(l, data, drains, CanSend(w))
    ensures Inv(OnSegment(l, w, s), data, drains, CanSend(Segment(w, l.conn, s, FwdAlive(l)).w))
  {
    var c, l1 := Heard(l.conn, s), Judge(l, s);
    var o := Segment(w, l.conn, s, FwdAlive(l));
    SegmentCases(w, l.conn, s, FwdAlive(l));
    if l.conn.state.Connecting? && o == Established(w, c) {
      EstablishedStep(l, s, w, data, drains);
    } else if l.conn.state.Connected? && o == AckSegment(w, c, s.payload, FwdAlive(l)) {
      AckStep(l, s, w, data, drains);
    } else {
      RemovalStep(l, l1, c, o.fate.why, FailReply(c), w, data, drains);
    }
  }

  lemma ShutdownStep(l: Lane, w: Writer, data: seq<Option<Bytes>>, drains: seq<nat>)
    requires l.inTable && Inv(l, data, drains, CanSend(w))
    ensures Inv(OnShutdown(l, w), data, drains, CanSend(ResetAndRemove(w, [], l.conn, ShutDown).w))
  {
    ResetStep(l, l, l.conn, ShutDown, w, data, drains);
  }

  // ---- steps of the tasks beside the mux task ------------------------------------------------

  lemma BornStep(w: Writer, id: nat, sport: U16, dport: U16)
    requires CanSend(w)
    ensures var o := Opened(w, id, sport, dport);
            o.fate.Stay? && Inv(Born(o), [], [], CanSend(o.w))
  {
    var o := Opened(w, id, sport, dport);
    assert o.segs == [SegOf(o.conn, SYN, [])];
    assert DataOf(o.segs) == [];
  }

  lemma {:induction false} PayloadsAppend(a: seq<Option<Bytes>>, b: seq<Option<Bytes>>)
    ensures Payloads(a + b) == Payloads(a) + Payloads(b)
  {
    if a == [] {
      assert a + b == b;
    } else {
      assert (a + b)[1..] == a[1..] + b;
      PayloadsAppend(a[1..], b);
    }
  }

  /** A chunk passes from the client's stream into the pump's hand. */
  lemma PumpReadOutbound(l: Lane, l2: Lane, chunk: Bytes, data: seq<Option<Bytes>>, alive: bool)
    requires Outbound(l, data, alive) && l.pump.Reading?
    requires l2 == l.(pump := Holding(Some(chunk)), pumped := l.pumped + chunk, unread := l2.unread)
    ensures Outbound(l2, data, alive)
  {
    PayloadsAppend(data, [Some(chunk)]);
    assert Payloads([Some(chunk)]) == chunk + Payloads([]);
    assert Pipeline(l, data) == data;
    assert l.accepted + (Payloads(data) + chunk) == l.accepted + Payloads(data) + chunk;
  }

  lemma PumpEofOutbound(l: Lane, l2: Lane, data: seq<Option<Bytes>>, alive: bool)
    requires Outbound(l, data, alive) && l.pump.Reading? && l2 == l.(pump := Holding(None))
    ensures Outbound(l2, data, alive)
  {
    PayloadsAppend(data, [None]);
    assert Pipeline(l, data) == data;
  }

  /** What the pump's new message, `msg`, means for the close and for the bound on `pending`. */
  lemma PumpReadLine(l: Lane, l2: Lane, data: seq<Option<Bytes>>, alive: bool)
    requires Closing(l, data, alive) && Gate(l, data, alive) && l.pump.Reading?
    requires l2.pump.Holding? && l2 == l.(pump := l2.pump, pumped := l2.pumped, unread := l2.unread)
    requires if l2.pump.msg.Some? then 0 < |l2.pump.msg.value| <= MAX_PAYLOAD && l.unread != []
             else AtEof(l) && l2.unread == [] && l2.pumped == l.pumped
    ensures Closing(l2, data, alive) && Gate(l2, data, alive)
  {
    assert Pipeline(l, data) == data && Pipeline(l2, data) == data + [l2.pump.msg];
  }

  lemma PumpReadStep(l: Lane, e: Local, data: seq<Option<Bytes>>, drains: seq<nat>, alive: bool)
    requires Inv(l, data, drains, alive) && Enabled(l, e) && (e.PumpReads? || e.PumpSeesEof?)
    ensures Inv(Do(l, e), data, drains, alive)
  {
    var l2 := Do(l, e);
    if e.PumpReads? {
      PumpReadOutbound(l, l2, l.unread[..e.n], data, alive);
    } else {
      PumpEofOutbound(l, l2, data, alive);
    }
    PumpReadLine(l, l2, data, alive);
  }

  lemma ForwarderTakeInbound(l: Lane, l2: Lane, drains: seq<nat>, alive: bool)
    requires Inbound(l, drains, alive) && l.fwd.Idle? && l.rxQ != []
    requires l2 == l.(fwd := Writing(l.rxQ[0]), rxQ := l.rxQ[1..])
    ensures Inbound(l2, drains, alive)
  {
    assert l.received + [] + (l.rxQ[0] + Flatten(l.rxQ[1..])) == l.received + l.rxQ[0] + Flatten(l.rxQ[1..]);
  }

  lemma ForwarderTakeStep(l: Lane, data: seq<Option<Bytes>>, drains: seq<nat>, alive: bool)
    requires Inv(l, data, drains, alive) && Enabled(l, ForwarderTakes)
    ensures Inv(Do(l, ForwarderTakes), data, drains, alive)
  {
    ForwarderTakeInbound(l, Do(l, ForwarderTakes), drains, alive);
  }

  lemma LocalStep(l: Lane, e: Local, data: seq<Option<Bytes>>, drains: seq<nat>, alive: bool)
    requires Inv(l, data, drains, alive) && Enabled(l, e)
    ensures Inv(Do(l, e), data, drains, alive)
  {
    match e
    case PumpReads(_) => PumpReadStep(l, e, data, drains, alive);
    case PumpSeesEof => PumpReadStep(l, e, data, drains, alive);
    case ForwarderTakes => ForwarderTakeStep(l, data, drains, alive);
    case ClientWrites(_) => ClientWriteStep(l, e, data, drains, alive);
    case ClientCloses => ClientEndStep(l, e, data, drains, alive);
    case ClientDrops => ClientEndStep(l, e, data, drains, alive);
    case PumpChecks => PumpFlagStep(l, e, data, drains, alive);
    case PumpWakes => PumpFlagStep(l, e, data, drains, alive);
    case ForwarderFails => ForwarderStops(l, data, drains, alive);
    case ForwarderEnds => ForwarderStops(l, data, drains, alive);
  }

  lemma ForwarderStopsInbound(l: Lane, drains: seq<nat>, alive: bool)
    requires Inbound(l, drains, alive) && FwdAlive(l)
    ensures Inbound(l.(fwd := FwdDone), drains, alive)
  {
  }

  lemma ForwarderStops(l: Lane, data: seq<Option<Bytes>>, drains: seq<nat>, alive: bool)
    requires Inv(l, data, drains, alive) && FwdAlive(l)
    ensures Inv(l.(fwd := FwdDone), data, drains, alive)
  {
    ForwarderStopsInbound(l, drains, alive);
    assert Pipeline(l.(fwd := FwdDone), data) == Pipeline(l, data);
  }

  lemma ClientWriteStep(l: Lane, e: Local, data: seq<Option<Bytes>>, drains: seq<nat>, alive: bool)
    requires Inv(l, data, drains, alive) && Enabled(l, e) && e.ClientWrites?
    ensures Inv(Do(l, e), data, drains, alive)
  {
    var l2 := l.(unread := l.unread + e.bytes);
    assert Pipeline(l2, data) == Pipeline(l, data) && !AtEof(l);
  }

  lemma EndedClosing(l: Lane, l2: Lane, data: seq<Option<Bytes>>, alive: bool)
    requires Closing(l, data, alive) && l2 == l.(closed := true, gone := l2.gone)
    ensures Closing(l2, data, alive)
  {
    assert Pipeline(l2, data) == Pipeline(l, data);
  }

  lemma EndedRest(l: Lane, l2: Lane, data: seq<Option<Bytes>>, drains: seq<nat>, alive: bool)
    requires WellFormed(l, data, drains) && Outbound(l, data, alive) && Gate(l, data, alive)
    requires l.pump != PumpOff && l2 == l.(closed := true, gone := l2.gone)
    ensures WellFormed(l2, data, drains) && Outbound(l2, data, alive) && Gate(l2, data, alive)
  {
    assert Pipeline(l2, data) == Pipeline(l, data);
  }

  lemma ClientEndStep(l: Lane, e: Local, data: seq<Option<Bytes>>, drains: seq<nat>, alive: bool)
    requires Inv(l, data, drains, alive) && Enabled(l, e) && (e.ClientCloses? || e.ClientDrops?)
    ensures Inv(Do(l, e), data, drains, alive)
  {
    EndedClosing(l, Do(l, e), data, alive);
    EndedRest(l, Do(l, e), data, drains, alive);
  }

  lemma PumpFlagStep(l: Lane, e: Local, data: seq<Option<Bytes>>, drains: seq<nat>, alive: bool)
    requires Inv(l, data, drains, alive) && Enabled(l, e) && (e.PumpChecks? || e.PumpWakes?)
    ensures Inv(Do(l, e), data, drains, alive)
  {
    assert Pipeline(Do(l, e), data) == Pipeline(l, data);
  }

  /** The pump's message enters the data channel. */
  lemma PumpSendStep(l: Lane, data: seq<Option<Bytes>>, drains: seq<nat>, alive: bool)
    requires Inv(l, data, drains, alive) && l.pump.Holding?
    ensures Inv(PumpSent(l, true), data + [l.pump.msg], drains, alive)
  {
    assert Pipeline(PumpSent(l, true), data + [l.pump.msg]) == Pipeline(l, data);
  }

  lemma ForwarderWriteInbound(l: Lane, drains: seq<nat>, alive: bool)
    requires Inbound(l, drains, alive) && l.fwd.Writing?
    ensures Inbound(ForwarderWrote(l, true), drains + [|l.fwd.chunk| % 0x1_0000_0000], alive)
  {
    SumSnoc(drains, |l.fwd.chunk| % 0x1_0000_0000);
    assert l.received + l.fwd.chunk + Flatten(l.rxQ) == l.received + l.fwd.chunk + [] + Flatten(l.rxQ);
  }

  /** The forwarder has written its chunk and reports it. A report is a u32; for an honest device
      the chunk is far below that. */
  lemma ForwarderWriteStep(l: Lane, data: seq<Option<Bytes>>, drains: seq<nat>, alive: bool)
    requires Inv(l, data, drains, alive) && l.fwd.Writing?
    ensures Inv(ForwarderWrote(l, true), data, drains + [|l.fwd.chunk| % 0x1_0000_0000], alive)
  {
    ForwarderWriteInbound(l, drains, alive);
    assert Pipeline(ForwarderWrote(l, true), data) == Pipeline(l, data);
  }

  /** After shutdown nobody receives any more: messages and reports are simply lost. */
  lemma OrphanPumpStep(l: Lane, data: seq<Option<Bytes>>, drains: seq<nat>, alive: bool)
    requires Inv(l, data, drains, alive) && !l.inTable && l.pump.Holding?
    ensures Inv(PumpSent(l, false), data, drains, alive)
  {
    assert data + [] == data;
  }

  lemma OrphanForwarderStep(l: Lane, data: seq<Option<Bytes>>, drains: seq<nat>, alive: bool)
    requires Inv(l, data, drains, alive) && !l.inTable && l.fwd.Writing?
    ensures Inv(ForwarderWrote(l, false), data, drains, alive)
  {
    assert Pipeline(ForwarderWrote(l, false), data) == Pipeline(l, data);
  }

  /** Messages and reports for a connection that has left the table are ignored. */
  lemma StaleSteps(l: Lane, data: seq<Option<Bytes>>, drains: seq<nat>, alive: bool)
    requires !l.inTable
    ensures forall m :: Inv(l, [m] + data, drains, alive) ==> Inv(l, data, drains, alive)
    ensures forall n :: Inv(l, data, [n] + drains, alive) ==> Inv(l, data, drains, alive)
  {
    forall m | Inv(l, [m] + data, drains, alive) ensures Inv(l, data, drains, alive) {
      LineShrinks(l, m, data);
    }
  }
}
