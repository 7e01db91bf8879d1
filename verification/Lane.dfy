/** One virtual connection with everything that runs beside it: the client's duplex stream, the
    pump that reads from it, the forwarder that writes to it, and the history of both byte
    streams. The mux task's own part of each step is the Outcome that ConnSpec computes. */
module Lane {
  import opened Prelude
  import opened Codec
  import opened ConnSpec

  const DUPLEX_BUF := 65536

  /** Where the pump task stands: about to test the pause flag, waiting on the Notify, past the
      test and about to read, or with a message it has not yet got into the data channel. */
  datatype Pump = PumpOff | Checking | Waiting | Reading | Holding(msg: Option<Bytes>) | PumpDone

  datatype Forwarder = FwdOff | Idle | Writing(chunk: Bytes) | FwdDone

  /** `unread` is what the client has written and the pump has not read; `pumped` what the pump has
      read; `accepted` what the mux task has taken over while connected; `sent` the frames this
      connection put on the wire. `inbound` is the payload taken from the device, `rxQ` the part
      still in the delivery channel, `received` the part written to the client.
      `acked` and `edge` are unbounded counters: the device's acknowledgement, and the most
      generous right edge of our receive window ever advertised. */
  datatype Lane = Lane(
    conn: Conn,
    inTable: bool,
    why: Option<Why>,
    pump: Pump,
    fwd: Forwarder,
    rxQ: seq<Bytes>,
    unread: Bytes,
    closed: bool,
    gone: bool,
    pumped: Bytes,
    accepted: Bytes,
    sent: seq<Seg>,
    inbound: Bytes,
    received: Bytes,
    acked: nat,
    ackHonest: bool,
    edge: nat,
    winHonest: bool)

  predicate Linked(l: Lane) {
    l.inTable && l.conn.state.Connected?
  }

  predicate FwdAlive(l: Lane) {
    l.fwd.Idle? || l.fwd.Writing?
  }

  function FwdHand(f: Forwarder): Bytes {
    if f.Writing? then f.chunk else []
  }

  /** Bytes sent so far, counting the SYN as one. */
  function SentCount(l: Lane): nat {
    1 + |DataOf(l.sent)|
  }

  // ---- the mux task's steps --------------------------------------------------------------

  function Born(o: Outcome): Lane {
    Lane(o.conn, true, None, PumpOff, FwdOff, [], [], false, false, [], [], o.segs, [], [], 0, true, RX_WINDOW, true)
  }

  /** Record an outcome. Turning connected starts the pump and the forwarder. */
  function Record(l: Lane, o: Outcome): Lane {
    var starts := !l.conn.state.Connected? && o.conn.state.Connected?;
    var inbound := l.inbound + Flatten(o.deliver);
    l.(conn := o.conn,
       inTable := o.fate.Stay?,
       why := if o.fate.Gone? then Some(o.fate.why) else l.why,
       pump := if starts then Checking else l.pump,
       fwd := if starts then Idle else l.fwd,
       rxQ := l.rxQ + o.deliver,
       sent := l.sent + o.segs,
       inbound := inbound,
       edge := if o.segs == [] then l.edge else Max(l.edge, |inbound| + WindowField(o.conn.rxBuffered) * 256))
  }

  function OnMessage(l: Lane, w: Writer, msg: Option<Bytes>): Lane
    requires l.inTable
  {
    var l1 := if l.conn.state.Connected? && msg.Some? then l.(accepted := l.accepted + msg.value) else l;
    Record(l1, ClientMessage(w, l.conn, msg))
  }

  function OnDrain(l: Lane, w: Writer, n: U32): Lane
    requires l.inTable
  {
    Record(l, DrainReport(w, l.conn, n))
  }

  /** The true acknowledgement a monotone device means by the 32-bit field `ack`. */
  function TrueAck(l: Lane, ack: U32): nat {
    l.acked + Sub32(ack, l.acked % 0x1_0000_0000)
  }

  /** An honest device acknowledges monotonically and never more than was sent; and its payload
      stays within the most generous right edge it was ever shown. */
  predicate HonestAck(l: Lane, s: Seg) {
    TrueAck(l, s.ack) <= SentCount(l)
  }

  predicate HonestWindow(l: Lane, s: Seg) {
    |l.inbound| + |s.payload| <= l.edge
  }

  function Judge(l: Lane, s: Seg): Lane {
    l.(acked := TrueAck(l, s.ack),
       ackHonest := l.ackHonest && HonestAck(l, s),
       winHonest := l.winHonest && HonestWindow(l, s))
  }

  function OnSegment(l: Lane, w: Writer, s: Seg): Lane
    requires l.inTable
  {
    Record(Judge(l, s), Segment(w, l.conn, s, FwdAlive(l)))
  }

  function OnShutdown(l: Lane, w: Writer): Lane
    requires l.inTable
  {
    Record(l, ResetAndRemove(w, [], l.conn, ShutDown))
  }

  // ---- steps of the client, the pump and the forwarder ------------------------------------

  datatype Local =
    | ClientWrites(bytes: Bytes)
    | ClientCloses
    | ClientDrops
    | PumpChecks
    | PumpWakes
    | PumpReads(n: nat)
    | PumpSeesEof
    | ForwarderTakes
    | ForwarderFails
    | ForwarderEnds

  predicate Enabled(l: Lane, e: Local) {
    match e
    case ClientWrites(bytes) => l.pump != PumpOff && !l.closed && |l.unread| + |bytes| <= DUPLEX_BUF
    case ClientCloses => l.pump != PumpOff
    case ClientDrops => l.pump != PumpOff
    case PumpChecks => l.pump.Checking?
    case PumpWakes => l.pump.Waiting? && l.conn.resumePermit
    case PumpReads(n) => l.pump.Reading? && 0 < n <= Min(MAX_PAYLOAD, |l.unread|)
    case PumpSeesEof => l.pump.Reading? && l.unread == [] && l.closed
    case ForwarderTakes => l.fwd.Idle? && l.rxQ != []
    case ForwarderFails => l.fwd.Writing? && l.gone
    case ForwarderEnds => l.fwd.Idle? && l.rxQ == [] && !l.conn.rxTx
  }

  function Do(l: Lane, e: Local): Lane
    requires Enabled(l, e)
  {
    match e
    case ClientWrites(bytes) => l.(unread := l.unread + bytes)
    case ClientCloses => l.(closed := true)
    case ClientDrops => l.(closed := true, gone := true)
    case PumpChecks => l.(pump := if l.conn.txPause then Waiting else Reading)
    case PumpWakes => l.(pump := Checking, conn := l.conn.(resumePermit := false))
    case PumpReads(n) =>
      l.(pump := Holding(Some(l.unread[..n])), pumped := l.pumped + l.unread[..n], unread := l.unread[n..])
    case PumpSeesEof => l.(pump := Holding(None))
    case ForwarderTakes => l.(fwd := Writing(l.rxQ[0]), rxQ := l.rxQ[1..])
    case ForwarderFails => l.(fwd := FwdDone)
    case ForwarderEnds => l.(fwd := FwdDone)
  }

  /** The message leaves the pump's hand, for the channel or (`delivered` false) for nowhere
      because the mux task is gone. */
  function PumpSent(l: Lane, delivered: bool): Lane
    requires l.pump.Holding?
  {
    l.(pump := if delivered && l.pump.msg.Some? then Checking else PumpDone)
  }

  /** The chunk has been written to the client and the drain report sent. */
  function ForwarderWrote(l: Lane, delivered: bool): Lane
    requires l.fwd.Writing?
  {
    l.(fwd := if delivered then Idle else FwdDone, received := l.received + l.fwd.chunk)
  }

  // ---- the invariant ---------------------------------------------------------------------

  function Payloads(msgs: seq<Option<Bytes>>): Bytes {
    if msgs == [] then []
    else (if msgs[0].Some? then msgs[0].value else []) + Payloads(msgs[1..])
  }

  /** Messages of this connection not yet processed: `data` is on its way to the mux task, the
      last one may still be in the pump's hand. */
  function Pipeline(l: Lane, data: seq<Option<Bytes>>): seq<Option<Bytes>> {
    data + if l.pump.Holding? then [l.pump.msg] else []
  }

  /** The pump is past the pause test and may still produce one message. */
  function InHand(p: Pump): nat {
    if p.Reading? || p.Holding? then 1 else 0
  }

  predicate WellFormed(l: Lane, data: seq<Option<Bytes>>, drains: seq<nat>) {
    && (l.inTable ==> !l.conn.state.Dead?
                      && (l.conn.reply <==> l.conn.state.Connecting?)
                      && (l.conn.rxTx <==> l.conn.state.Connected?))
    && (!l.inTable ==> l.conn.state.Dead? && !l.conn.reply && !l.conn.rxTx && l.why.Some?)
    && (Linked(l) ==> l.pump != PumpOff && l.fwd != FwdOff)
    && (l.inTable && l.conn.state.Connecting? ==> l.pump.PumpOff? && |l.sent| == 1)
    && (l.pump.PumpOff? ==>
          && l.fwd.FwdOff? && data == [] && drains == [] && l.rxQ == []
          && l.unread == [] && l.pumped == [] && l.accepted == [] && l.inbound == [] && l.received == []
          && !l.closed && l.conn.pending == [] && l.conn.rxBuffered == 0
          && !l.conn.txPause && !l.conn.clientClosed && l.edge == RX_WINDOW
          && DataOf(l.sent) == [])
    && |l.sent| >= 1 && l.sent[0].flags == SYN && l.sent[0].payload == []
    && (l.inTable ==> l.why.None? && !EndsInRst(l))
  }

  /** Outbound: what is on the wire, followed by what is pending, is what was taken from the pump;
      followed by what is on its way, it is what the pump read. */
  predicate Outbound(l: Lane, data: seq<Option<Bytes>>, alive: bool) {
    && DataOf(l.sent) <= l.accepted <= l.pumped
    && (!l.pump.PumpOff? ==> |l.sent| >= 1 && Numbered(l.sent[1..], 1))
    && (l.inTable ==> l.accepted + Payloads(Pipeline(l, data)) == l.pumped)
    && (alive && l.inTable ==> DataOf(l.sent) + l.conn.pending == l.accepted)
    && (alive && l.inTable && l.conn.state.Connecting? ==> l.conn.txSeq == 0)
    && (alive && Linked(l) ==> l.conn.txSeq == SentCount(l) % 0x1_0000_0000)
  }

  predicate EndsInRst(l: Lane) {
    l.sent != [] && l.sent[|l.sent| - 1].flags == RST
  }

  predicate AtEof(l: Lane) {
    l.closed && l.unread == []
  }

  predicate Closing(l: Lane, data: seq<Option<Bytes>>, alive: bool) {
    var line := Pipeline(l, data);
    && (l.inTable ==> forall i :: 0 <= i < |line| && line[i].None? ==> i == |line| - 1)
    && (l.inTable && line != [] && line[|line| - 1].None? ==> AtEof(l) && (l.pump.Holding? || l.pump.PumpDone?))
    && (l.inTable && l.conn.clientClosed ==> line == [] && AtEof(l) && l.pump.PumpDone?)
    && (alive && l.inTable && l.conn.clientClosed ==> l.conn.pending != [])
    && (l.why == Some(Drained) && EndsInRst(l) ==> AtEof(l) && DataOf(l.sent) == l.pumped)
  }

  predicate Gate(l: Lane, data: seq<Option<Bytes>>, alive: bool) {
    && (l.pump.Waiting? && !l.conn.txPause ==> l.conn.resumePermit)
    && (forall m :: m in Pipeline(l, data) && m.Some? ==> 0 < |m.value| <= MAX_PAYLOAD)
    && (l.inTable && !l.conn.txPause ==> |l.conn.pending| <= TX_HIGH_WATER)
    && (l.inTable && l.conn.txPause ==>
          |l.conn.pending| + MAX_PAYLOAD * (|data| + InHand(l.pump)) <= TX_HIGH_WATER + 66 * MAX_PAYLOAD)
    && (alive && l.inTable && l.conn.txPause ==> |l.conn.pending| >= TX_LOW_WATER)
  }

  /** Inbound: every payload byte taken from the device is with the client, in the forwarder's
      hand or in the delivery channel, in order; and receive-window accounting is exact. */
  predicate Inbound(l: Lane, drains: seq<nat>, alive: bool) {
    && l.received <= l.inbound
    && (FwdAlive(l) ==> l.received + FwdHand(l.fwd) + Flatten(l.rxQ) == l.inbound)
    && (alive && l.inTable && l.conn.state.Connecting? ==> l.conn.txAck == 0)
    && (alive && Linked(l) ==> l.conn.txAck == (1 + |l.inbound|) % 0x1_0000_0000)
    && (l.winHonest && l.inTable ==>
          && Sum(drains) <= l.conn.rxBuffered <= RX_WINDOW
          && l.edge + l.conn.rxBuffered <= |l.inbound| + RX_WINDOW
          && (FwdAlive(l) ==> l.conn.rxBuffered == |Flatten(l.rxQ)| + |FwdHand(l.fwd)| + Sum(drains)))
  }

  /** The device's latest news of us: the last frame sent acknowledges everything, and does not
      show a closed window when there is room for a full payload. */
  predicate Updated(l: Lane, alive: bool) {
    alive && Linked(l) ==>
      |l.sent| >= 1 &&
      var last := l.sent[|l.sent| - 1];
      && last.ack == l.conn.txAck
      && (SatSub(RX_WINDOW, l.conn.rxBuffered) >= MAX_PAYLOAD ==> last.window >= MAX_PAYLOAD / 256)
  }

  const MAX_WINDOW := 65535 * 256

  predicate SendWindow(l: Lane, alive: bool) {
    && (l.inTable ==> l.conn.rxWin <= MAX_WINDOW)
    && (alive && Linked(l) ==> l.conn.pending == [] || InFlight(l.conn) >= l.conn.rxWin)
    && (alive && l.inTable && l.conn.state.Connecting? ==> l.acked == 0)
    && (alive && Linked(l) && l.ackHonest ==>
          l.acked <= SentCount(l) <= l.acked + MAX_WINDOW && l.conn.rxAck == l.acked % 0x1_0000_0000)
  }

  predicate Inv(l: Lane, data: seq<Option<Bytes>>, drains: seq<nat>, alive: bool) {
    && WellFormed(l, data, drains)
    && Outbound(l, data, alive)
    && Closing(l, data, alive)
    && Gate(l, data, alive)
    && Inbound(l, drains, alive)
    && Updated(l, alive)
    && SendWindow(l, alive)
  }

  /** Losing the writer channel only weakens the invariant. */
  lemma InvDies(l: Lane, data: seq<Option<Bytes>>, drains: seq<nat>, alive: bool, alive': bool)
    requires Inv(l, data, drains, alive)
    requires alive' ==> alive
    ensures Inv(l, data, drains, alive')
  {
  }
}
