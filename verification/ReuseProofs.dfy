/** What every event keeps when ports are reused without a guard: who is who, the pause flags, both
    the bytes and the replies of every connection there ever was. */
module ReuseProofs {
  import opened Prelude
  import opened Codec
  import opened ConnSpec
  import opened PortReuse
  import Departures
  import Lane
  import LaneProofs
  import MuxSpec
  import MuxTheorems
  import System
  import SystemProofs

  // ---- the handlers ------------------------------------------------------------------------

  /** With the writer channel open, a paused connection has at least the low-water mark pending. */
  predicate Full(c: Conn, alive: bool) {
    alive && c.txPause ==> |c.pending| >= TX_LOW_WATER
  }

  /** What every handler does for the connection `c` of an entry: its identity and its reply; when it
      connects; that a pause is lifted only with a permit. */
  predicate Sound(c: Conn, w: Writer, o: Outcome) {
    && SystemProofs.Resolves(c, w, o)
    && (o.fate.Stay? ==> !o.conn.state.Dead? && (c.state.Connected? ==> o.conn.state.Connected?))
    && (o.fate.Gone? ==> o.conn.state.Dead? && !o.conn.reply)
    && (!c.state.Connected? && o.conn.state.Connected? ==> CanSend(w))
    && (c.resumePermit ==> o.conn.resumePermit) && (c.txPause && !o.conn.txPause ==> o.conn.resumePermit)
    && (Full(c, CanSend(w)) ==> Full(o.conn, CanSend(o.w)))
  }

  /** The handler puts on the wire, or leaves pending, exactly `whole`; it notes a close, and only
      then; and a drained connection has been closed. */
  predicate Conveys(c: Conn, whole: Bytes, closing: bool, o: Outcome) {
    && (CanSend(o.w) ==> DataOf(o.segs) + o.conn.pending == whole)
    && o.conn.clientClosed == (c.clientClosed || closing)
    && (o.fate == Gone(Drained) ==> o.conn.clientClosed)
  }

  lemma PrefixRest(now: Bytes, pending: Bytes)
    requires now <= pending
    ensures now + pending[|now|..] == pending
  {
  }

  lemma DataSound(w: Writer, c: Conn, bytes: Bytes)
    requires c.state.Connected?
    ensures Sound(c, w, ClientData(w, c, bytes))
    ensures Conveys(c, c.pending + bytes, false, ClientData(w, c, bytes))
  {
    var o := ClientData(w, c, bytes);
    LaneProofs.DataKeeps(w, c, bytes);
    SystemProofs.MessageResolves(w, c, Some(bytes));
    Departures.DataAbrupt(w, c, bytes);
    PrefixRest(DataOf(o.segs), c.pending + bytes);
  }

  /** A close that succeeds has lifted the pause: nothing is pending any more. */
  lemma CloseUnpaused(w: Writer, c: Conn)
    requires c.state.Connected?
    ensures var o := ClientClose(w, c);
            CanSend(o.w) && o.fate.Gone? ==> o.conn.pending == [] && !o.conn.txPause && DataOf(o.segs) == c.pending
  {
    Departures.CloseAbrupt(w, c);
    LaneProofs.CloseKeeps(w, c);
    LaneProofs.FlushKeeps(w, c.(clientClosed := true));
  }

  lemma CloseSound(w: Writer, c: Conn)
    requires c.state.Connected?
    ensures Sound(c, w, ClientClose(w, c)) && Conveys(c, c.pending, true, ClientClose(w, c))
  {
    var o := ClientClose(w, c);
    LaneProofs.CloseKeeps(w, c);
    SystemProofs.MessageResolves(w, c, None);
    CloseUnpaused(w, c);
    PrefixRest(DataOf(o.segs), c.pending);
    assert DataOf(o.segs) + [] == DataOf(o.segs);
  }

  lemma MessageSound(w: Writer, c: Conn, msg: Option<Bytes>)
    requires c.state.Connected?
    ensures var o := ClientMessage(w, c, msg);
            Sound(c, w, o) && Conveys(c, c.pending + LaneProofs.Taken(msg), msg.None?, o)
  {
    if msg.Some? {
      DataSound(w, c, msg.value);
    } else {
      CloseSound(w, c);
      assert c.pending + [] == c.pending;
    }
  }

  lemma FlushAndCloseUnpaused(w: Writer, segs: seq<Seg>, c: Conn, deliver: seq<Bytes>)
    ensures var o := FlushAndClose(w, segs, c, deliver);
            o.fate.Gone? ==> o.fate == Gone(Drained) && o.conn.pending == [] && !o.conn.txPause
  {
  }

  /** Flushing after an acknowledgement: `c` with its counters updated. */
  lemma FlushedSound(w: Writer, c: Conn, o: Outcome)
    requires c.state.Connected? && LaneProofs.Sends(w, c, o) && LaneProofs.Moves(c, o) && LaneProofs.Gates(c, o)
    requires SystemProofs.Resolves(c, w, o)
    requires o.fate.Gone? ==> o.fate == Gone(Drained) && o.conn.pending == [] && !o.conn.txPause
    ensures Sound(c, w, o) && Conveys(c, c.pending, false, o)
  {
    PrefixRest(DataOf(o.segs), c.pending);
    assert DataOf(o.segs) + [] == DataOf(o.segs);
  }

  lemma PureAckSound(w: Writer, c: Conn)
    requires c.state.Connected?
    ensures Sound(c, w, AckSegment(w, c, [], true)) && Conveys(c, c.pending, false, AckSegment(w, c, [], true))
  {
    var o := FlushAndClose(w, [], c, []);
    LaneProofs.FlushAndCloseKeeps(w, c);
    SystemProofs.FlushAndCloseResolves(w, [], c, []);
    FlushAndCloseUnpaused(w, [], c, []);
    FlushedSound(w, c, o);
  }

  lemma PayloadSound(w: Writer, c: Conn, payload: Bytes)
    requires c.state.Connected? && c.rxTx && payload != []
    ensures Sound(c, w, AckSegment(w, c, payload, true)) && Conveys(c, c.pending, false, AckSegment(w, c, payload, true))
  {
    var c1, o := LaneProofs.Counted(c, payload), AckSegment(w, c, payload, true);
    LaneProofs.AckKeeps(w, c, payload);
    SystemProofs.AckResolves(w, c, payload, true);
    FlushAndCloseUnpaused(SendWriter(w, []), [SegOf(c1, ACK, [])], c1, [payload]);
    FlushedSound(w, c1, o);
  }

  lemma ResetSound(w: Writer, c: Conn)
    requires c.state.Connected?
    ensures Sound(c, w, ResetAndRemove(w, [], c, UserGone))
    ensures Conveys(c, c.pending, false, ResetAndRemove(w, [], c, UserGone))
  {
  }

  lemma AckSound(w: Writer, c: Conn, payload: Bytes, alive: bool)
    requires c.state.Connected?
    ensures var o := AckSegment(w, c, payload, alive);
            Sound(c, w, o) && Conveys(c, c.pending, false, o)
  {
    if payload == [] {
      PureAckSound(w, c);
    } else if alive && c.rxTx {
      PayloadSound(w, c, payload);
    } else {
      ResetSound(w, c);
    }
  }

  lemma ConnectingSound(w: Writer, c: Conn, o: Outcome)
    requires o == Established(w, c) || (o.fate.Gone? && o.fate.why != Drained
                                        && o == Outcome(w, [], TearDown(c), o.fate, FailReply(c), []))
    requires c.state.Connecting? || o.fate.Gone?
    ensures Sound(c, w, o) && Conveys(c, c.pending, false, o)
  {
  }

  lemma SegmentSound(w: Writer, c: Conn, seg: Seg, alive: bool)
    requires !c.state.Dead?
    ensures var o := Segment(w, c, seg, alive);
            Sound(c, w, o) && Conveys(c, c.pending, false, o)
  {
    var c0 := LaneProofs.Heard(c, seg);
    var o := Segment(w, c, seg, alive);
    LaneProofs.SegmentCases(w, c, seg, alive);
    if c.state.Connected? && o == AckSegment(w, c0, seg.payload, alive) {
      AckSound(w, c0, seg.payload, alive);
    } else {
      ConnectingSound(w, c0, o);
    }
    assert Sound(c0, w, o) && Conveys(c0, c0.pending, false, o);
  }

  lemma DrainSound(w: Writer, c: Conn, n: U32)
    requires !c.state.Dead?
    ensures var o := DrainReport(w, c, n);
            Sound(c, w, o) && Conveys(c, c.pending, false, o)
  {
  }

  // ---- the events --------------------------------------------------------------------------

  function BytesOf(pieces: seq<Piece>): Bytes {
    if pieces == [] then [] else LaneProofs.Taken(pieces[0].payload) + BytesOf(pieces[1..])
  }

  predicate HasClose(pieces: seq<Piece>) {
    exists x :: x in pieces && x.payload.None?
  }

  /** The connected entry at `p` acts on `msg`. */
  predicate Acts(s: Shared, p: U16, msg: Msg, pieces: seq<Piece>) {
    Takes(s, msg) && msg.port == p && pieces == [Piece(msg.sender, msg.payload)]
  }

  /** The entry at `p` has outcome `o`, acting on the messages `pieces`. */
  ghost predicate EntryEvent(s: Shared, s': Shared, p: U16, o: Outcome, pieces: seq<Piece>) {
    && p in s.mux.table && !s.mux.table[p].state.Dead? && Sound(s.mux.table[p], s.mux.writer, o)
    && Conveys(s.mux.table[p], s.mux.table[p].pending + BytesOf(pieces), HasClose(pieces), o)
    && s'.mux == MuxSpec.OnOutcome(s.mux, p, o)
    && s' == Track(s, s'.mux, p, o).(queue := s'.queue, taken := s'.taken)
    && (s'.queue == s.queue || (s.queue != [] && s'.queue == s.queue[1..]))
    && (pieces != [] ==> s.queue != [] && Acts(s, p, s.queue[0], pieces))
    && s'.taken == if pieces == [] then s.taken else s.taken[o.conn.id := Of(s.taken, o.conn.id) + pieces]
  }

  /** Nothing that belongs to a connection moves. */
  ghost predicate Aside(s: Shared, s': Shared) {
    && s'.mux == s.mux.(writer := s'.mux.writer, segs := s'.mux.segs)
    && (CanSend(s'.mux.writer) ==> CanSend(s.mux.writer))
    && s' == s.(mux := s'.mux, queue := s'.queue)
    && (s'.queue == s.queue || (s.queue != [] && s'.queue == s.queue[1..]))
  }

  predicate IsPumpEvent(e: Event, id: nat) {
    match e
    case PumpChecks(x) => x == id
    case PumpWakes(x) => x == id
    case PumpReads(x, _) => x == id
    case PumpSeesEof(x) => x == id
    case PumpSends(x) => x == id
    case _ => false
  }

  predicate AllLive(s: Shared) {
    forall p :: p in s.mux.table ==> !s.mux.table[p].state.Dead?
  }

  lemma PacketIs(s: Shared, seg: Seg, userAlive: bool)
    requires AllLive(s)
    ensures var s' := OnPacket(s, seg, userAlive);
            if seg.dst in s.mux.table then
              EntryEvent(s, s', seg.dst, Segment(s.mux.writer, s.mux.table[seg.dst], seg, userAlive), [])
            else Aside(s, s')
  {
    if seg.dst in s.mux.table {
      SegmentSound(s.mux.writer, s.mux.table[seg.dst], seg, userAlive);
    }
  }

  lemma DrainIs(s: Shared, p: U16, n: U32)
    requires AllLive(s)
    ensures var s' := OnDrain(s, p, n);
            if p in s.mux.table then EntryEvent(s, s', p, DrainReport(s.mux.writer, s.mux.table[p], n), [])
            else Aside(s, s')
  {
    if p in s.mux.table {
      DrainSound(s.mux.writer, s.mux.table[p], n);
    }
  }

  lemma ProcessIs(s: Shared)
    requires AllLive(s) && s.queue != []
    ensures var s', msg := OnProcess(s), s.queue[0];
            if Takes(s, msg) then
              EntryEvent(s, s', msg.port, ClientMessage(s.mux.writer, s.mux.table[msg.port], msg.payload),
                         [Piece(msg.sender, msg.payload)])
            else Aside(s, s')
  {
    var msg := s.queue[0];
    if Takes(s, msg) {
      MessageSound(s.mux.writer, s.mux.table[msg.port], msg.payload);
    } else if msg.port in s.mux.table {
      var c := s.mux.table[msg.port];
      assert ClientMessage(s.mux.writer, c, msg.payload) == Outcome(s.mux.writer, [], c, Stay, [], []);
      assert s.mux.table[msg.port := c] == s.mux.table;
      assert s.mux.segs + [] == s.mux.segs && s.mux.replies + [] == s.mux.replies;
    }
  }

  /** A Connect takes the next port; if its SYN can be sent it takes the port's entry too. */
  lemma ConnectIs(s: Shared, dport: U16)
    ensures var s', p, n := OnConnect(s, dport), s.mux.nextPort, s.mux.connects;
            && s'.mux.connects == n + 1 && s'.mux.nextPort == NextPort(p)
            && s'.pumps == s.pumps && s'.queue == s.queue && s'.taken == s.taken && s'.sent == s.sent
            && (CanSend(s'.mux.writer) ==> CanSend(s.mux.writer))
            && if CanSend(s.mux.writer) then
                 && s'.mux.table == s.mux.table[p := Fresh(n, p, dport)] && s'.mux.replies == s.mux.replies
                 && s'.left == if p in s.mux.table then s.left[s.mux.table[p].id := Former(s.mux.table[p], None)]
                               else s.left
               else
                 && s'.mux.table == s.mux.table && s'.mux.replies == s.mux.replies + [Answer(n, false)]
                 && s'.left == s.left
  {
    assert s.mux.replies + [] == s.mux.replies;
  }

  predicate OnlyPermit(c: Conn, c': Conn) {
    c' == c.(resumePermit := c'.resumePermit)
  }

  predicate SameEntries(s: Shared, s': Shared) {
    && s'.mux == s.mux.(table := s'.mux.table) && s'.mux.table.Keys == s.mux.table.Keys
    && (forall p :: p in s.mux.table ==> OnlyPermit(s.mux.table[p], s'.mux.table[p]))
  }

  predicate SameLeft(s: Shared, s': Shared) {
    && s'.left.Keys == s.left.Keys
    && (forall id :: id in s.left ==> s'.left[id] == s.left[id].(conn := s'.left[id].conn))
    && (forall id :: id in s.left ==> OnlyPermit(s.left[id].conn, s'.left[id].conn))
  }

  lemma UsePermitIs(s: Shared, id: nat)
    requires id in s.pumps
    ensures var s' := UsePermit(s, id);
            SameEntries(s, s') && SameLeft(s, s') && s' == s.(mux := s'.mux, left := s'.left)
  {
  }

  lemma UsePermitGate(s: Shared, id: nat, x: nat)
    requires id in s.pumps && x in s.pumps
    ensures OnlyPermit(Gate(s, x), Gate(UsePermit(s, id), x)) && (x != id ==> Gate(UsePermit(s, id), x) == Gate(s, x))
  {
    var s', q := UsePermit(s, id), s.pumps[x].port;
    UsePermitIs(s, id);
    assert Holds(s', x, q) <==> Holds(s, x, q);
    if Holds(s, x, q) {
      assert x != id ==> s'.mux.table[q] == s.mux.table[q];
    } else if x in s.left {
      assert x != id ==> s'.left[x] == s.left[x];
    }
  }

  lemma MoveGate(s: Shared, id: nat, at: Lane.Pump, x: nat)
    requires id in s.pumps && x in s.pumps
    ensures Gate(Move(s, id, at), x) == Gate(s, x)
  {
  }

  /** A step of pump `id` moves that pump, may use up a permit and may send a message; no more. */
  lemma PumpIs(s: Shared, e: Event, id: nat)
    requires Can(s, e) && IsPumpEvent(e, id)
    ensures var s' := Next(s, e);
            && id in s.pumps && id in s'.pumps && SameEntries(s, s') && SameLeft(s, s')
            && s'.pumps == s.pumps[id := s.pumps[id].(at := s'.pumps[id].at)]
            && s'.taken == s.taken && s'.sent == s.sent
            && s'.queue == s.queue + if e.PumpSends? then [Msg(id, s.pumps[id].port, s.pumps[id].at.msg)] else []
  {
    if e.PumpWakes? {
      UsePermitIs(s, id);
    } else {
      assert Next(s, e).mux == s.mux && Next(s, e).left == s.left;
    }
  }

  // ---- who is who --------------------------------------------------------------------------

  predicate EntryAt(s: Shared, p: U16)
    requires p in s.mux.table
  {
    var c := s.mux.table[p];
    && c.id < s.mux.connects && p == PortOf(c.id) && !c.state.Dead? && (c.state.Connected? <==> c.id in s.pumps)
  }

  predicate PumpAt(s: Shared, id: nat)
    requires id in s.pumps
  {
    && id < s.mux.connects && s.pumps[id].port == PortOf(id) && !s.pumps[id].at.PumpOff?
    && (Holds(s, id, PortOf(id)) || id in s.left)
  }

  /** A connection that has left never has an entry again; a later one may have its port. */
  predicate LeftAt(s: Shared, id: nat) {
    id < s.mux.connects && (PortOf(id) in s.mux.table ==> id < s.mux.table[PortOf(id)].id)
  }

  ghost predicate Known(s: Shared) {
    && s.mux.nextPort == PortOf(s.mux.connects)
    && (forall p :: p in s.mux.table ==> EntryAt(s, p))
    && (forall id :: id in s.pumps ==> PumpAt(s, id))
    && (forall id :: id in s.left ==> LeftAt(s, id))
    && (forall i :: 0 <= i < |s.queue| ==>
          s.queue[i].sender in s.pumps && s.queue[i].port == PortOf(s.queue[i].sender))
    && (forall id :: id in s.taken || id in s.sent ==> id < s.mux.connects)
  }

  lemma EntryKnown(s: Shared, s': Shared, p: U16, o: Outcome, pieces: seq<Piece>)
    requires Known(s) && EntryEvent(s, s', p, o, pieces)
    ensures Known(s')
  {
    assert EntryAt(s, p);
    forall q | q in s'.mux.table ensures EntryAt(s', q) {
      assert EntryAt(s, q);
    }
    forall id | id in s'.pumps ensures PumpAt(s', id) {
      assert id in s.pumps ==> PumpAt(s, id);
    }
    forall id | id in s'.left ensures LeftAt(s', id) {
      assert id in s.left ==> LeftAt(s, id);
    }
  }

  lemma ConnectLeft(s: Shared, dport: U16, id: nat)
    requires Known(s) && id in OnConnect(s, dport).left
    ensures LeftAt(OnConnect(s, dport), id)
  {
    ConnectIs(s, dport);
    if s.mux.nextPort in s.mux.table {
      assert EntryAt(s, s.mux.nextPort);
    }
    assert id in s.left ==> LeftAt(s, id);
  }

  lemma ConnectKnown(s: Shared, dport: U16)
    requires Known(s)
    ensures Known(OnConnect(s, dport))
  {
    SystemProofs.NextPortCycles(s.mux.connects);
    var s' := OnConnect(s, dport);
    ConnectIs(s, dport);
    forall q | q in s'.mux.table ensures EntryAt(s', q) {
      assert q in s.mux.table ==> EntryAt(s, q);
      assert s.mux.connects in s.pumps ==> PumpAt(s, s.mux.connects);
    }
    forall id | id in s'.pumps ensures PumpAt(s', id) {
      assert PumpAt(s, id);
    }
    forall id | id in s'.left ensures LeftAt(s', id) {
      ConnectLeft(s, dport, id);
    }
  }

  lemma PumpKnown(s: Shared, e: Event, id: nat)
    requires Known(s) && Can(s, e) && IsPumpEvent(e, id)
    ensures Known(Next(s, e))
  {
    var s' := Next(s, e);
    PumpIs(s, e, id);
    assert PumpAt(s, id);
    forall q | q in s'.mux.table ensures EntryAt(s', q) {
      assert EntryAt(s, q) && OnlyPermit(s.mux.table[q], s'.mux.table[q]);
    }
    forall x | x in s'.pumps ensures PumpAt(s', x) {
      assert PumpAt(s, x);
    }
    forall x | x in s'.left ensures LeftAt(s', x) {
      assert LeftAt(s, x);
    }
  }

  lemma AsideKnown(s: Shared, s': Shared)
    requires Known(s) && Aside(s, s')
    ensures Known(s')
  {
    forall q | q in s'.mux.table ensures EntryAt(s', q) {
      assert EntryAt(s, q);
    }
    forall id | id in s'.pumps ensures PumpAt(s', id) {
      assert PumpAt(s, id);
    }
    forall id | id in s'.left ensures LeftAt(s', id) {
      assert LeftAt(s, id);
    }
  }

  lemma KnownLive(s: Shared)
    requires Known(s)
    ensures AllLive(s)
  {
    forall p | p in s.mux.table ensures !s.mux.table[p].state.Dead? {
      assert EntryAt(s, p);
    }
  }

  // ---- the pause flags ---------------------------------------------------------------------

  /** A pump that sleeps unpaused has a permit; and what is paused has something to wait for. */
  predicate PermitAt(s: Shared, id: nat)
    requires id in s.pumps
  {
    s.pumps[id].at.Waiting? && !Gate(s, id).txPause ==> Gate(s, id).resumePermit
  }

  ghost predicate Gated(s: Shared) {
    && (forall id :: id in s.pumps ==> PermitAt(s, id))
    && (forall p :: p in s.mux.table ==> Full(s.mux.table[p], CanSend(s.mux.writer)))
    && (forall id :: id in s.left ==> Full(s.left[id].conn, CanSend(s.mux.writer)))
  }

  /** The gate of a pump follows its connection out of the table. */
  lemma EntryGate(s: Shared, s': Shared, p: U16, o: Outcome, pieces: seq<Piece>, id: nat)
    requires Known(s) && EntryEvent(s, s', p, o, pieces) && id in s.pumps
    ensures id in s'.pumps && (s.mux.table[p].state.Connected? ==> s'.pumps == s.pumps)
    ensures s'.pumps[id].port == s.pumps[id].port
    ensures Gate(s', id) == if id == o.conn.id then o.conn else Gate(s, id)
  {
    assert PumpAt(s, id) && EntryAt(s, p);
  }

  lemma EntryGated(s: Shared, s': Shared, p: U16, o: Outcome, pieces: seq<Piece>)
    requires Known(s) && Gated(s) && EntryEvent(s, s', p, o, pieces)
    ensures Gated(s')
  {
    assert EntryAt(s, p);
    forall id | id in s'.pumps ensures PermitAt(s', id) {
      if id in s.pumps {
        EntryGate(s, s', p, o, pieces, id);
        assert PermitAt(s, id) && PumpAt(s, id);
      }
    }
  }

  lemma ConnectGate(s: Shared, dport: U16, id: nat)
    requires Known(s) && id in s.pumps
    ensures id in OnConnect(s, dport).pumps && Gate(OnConnect(s, dport), id) == Gate(s, id)
  {
    ConnectIs(s, dport);
    assert PumpAt(s, id);
    if s.mux.nextPort in s.mux.table {
      assert EntryAt(s, s.mux.nextPort);
    }
  }

  lemma ConnectGated(s: Shared, dport: U16)
    requires Known(s) && Gated(s)
    ensures Gated(OnConnect(s, dport))
  {
    var s' := OnConnect(s, dport);
    ConnectIs(s, dport);
    forall id | id in s'.pumps ensures PermitAt(s', id) {
      ConnectGate(s, dport, id);
      assert PermitAt(s, id);
    }
  }

  lemma PumpGate(s: Shared, e: Event, id: nat, x: nat)
    requires Can(s, e) && IsPumpEvent(e, id) && x in s.pumps
    ensures x in Next(s, e).pumps && OnlyPermit(Gate(s, x), Gate(Next(s, e), x))
    ensures (!e.PumpWakes? || x != id) ==> Gate(Next(s, e), x) == Gate(s, x)
  {
    match e {
      case PumpWakes(_) =>
        UsePermitGate(s, id, x);
        MoveGate(UsePermit(s, id), id, Lane.Checking, x);
      case PumpChecks(_) => MoveGate(s, id, Next(s, e).pumps[id].at, x);
      case PumpReads(_, _) => MoveGate(s, id, Next(s, e).pumps[id].at, x);
      case PumpSeesEof(_) => MoveGate(s, id, Next(s, e).pumps[id].at, x);
      case PumpSends(_) => MoveGate(s, id, Next(s, e).pumps[id].at, x);
    }
  }

  lemma PumpGated(s: Shared, e: Event, id: nat)
    requires Known(s) && Gated(s) && Can(s, e) && IsPumpEvent(e, id)
    ensures Gated(Next(s, e))
  {
    var s' := Next(s, e);
    PumpIs(s, e, id);
    forall x | x in s'.pumps ensures PermitAt(s', x) {
      PumpGate(s, e, id, x);
      assert PermitAt(s, x);
    }
    forall p | p in s'.mux.table ensures Full(s'.mux.table[p], CanSend(s'.mux.writer)) {
      assert OnlyPermit(s.mux.table[p], s'.mux.table[p]);
    }
    forall x | x in s'.left ensures Full(s'.left[x].conn, CanSend(s'.mux.writer)) {
      assert OnlyPermit(s.left[x].conn, s'.left[x].conn);
    }
  }

  lemma AsideGated(s: Shared, s': Shared)
    requires Known(s) && Gated(s) && Aside(s, s')
    ensures Gated(s')
  {
    forall id | id in s'.pumps ensures PermitAt(s', id) {
      assert PermitAt(s, id);
    }
  }

  // ---- the bytes ---------------------------------------------------------------------------

  /** What the connection has put on the wire, then what it has pending, is all it has taken; and it
      is closed exactly if a close was among that. */
  predicate Flows(s: Shared, c: Conn) {
    && (CanSend(s.mux.writer) ==> DataOf(Of(s.sent, c.id)) + c.pending == BytesOf(Of(s.taken, c.id)))
    && (c.clientClosed <==> HasClose(Of(s.taken, c.id)))
  }

  predicate FormerFlows(s: Shared, id: nat)
    requires id in s.left
  {
    var f := s.left[id];
    f.conn.id == id && Flows(s, f.conn) && (f.why == Some(Drained) ==> f.conn.clientClosed)
  }

  ghost predicate Streams(s: Shared) {
    && (forall p :: p in s.mux.table ==> Flows(s, s.mux.table[p]))
    && (forall id :: id in s.left ==> FormerFlows(s, id))
  }

  lemma {:induction false} BytesOfAppend(a: seq<Piece>, b: seq<Piece>)
    ensures BytesOf(a + b) == BytesOf(a) + BytesOf(b)
  {
    if a == [] {
      assert a + b == b;
    } else {
      assert (a + b)[1..] == a[1..] + b;
      BytesOfAppend(a[1..], b);
    }
  }

  lemma HasCloseAppend(a: seq<Piece>, b: seq<Piece>)
    ensures HasClose(a + b) <==> HasClose(a) || HasClose(b)
  {
    if x :| x in a && x.payload.None? {
      assert x in a + b;
    }
    if x :| x in b && x.payload.None? {
      assert x in a + b;
    }
  }

  lemma Extends(sent: Bytes, pending: Bytes, extra: Bytes, more: Bytes, rest: Bytes)
    requires more + rest == pending + extra
    ensures sent + more + rest == sent + pending + extra
  {
    assert sent + (more + rest) == sent + more + rest && sent + (pending + extra) == sent + pending + extra;
  }

  lemma EntryFlows(s: Shared, s': Shared, p: U16, o: Outcome, pieces: seq<Piece>)
    requires EntryEvent(s, s', p, o, pieces) && Flows(s, s.mux.table[p])
    ensures Flows(s', o.conn)
  {
    var c := s.mux.table[p];
    DataOfAppend(Of(s.sent, c.id), o.segs);
    BytesOfAppend(Of(s.taken, c.id), pieces);
    HasCloseAppend(Of(s.taken, c.id), pieces);
    assert Of(s'.taken, c.id) == Of(s.taken, c.id) + pieces;
    if CanSend(o.w) {
      Extends(DataOf(Of(s.sent, c.id)), c.pending, BytesOf(pieces), DataOf(o.segs), o.conn.pending);
    }
  }

  /** No other connection has the ordinal of an entry. */
  lemma OtherIds(s: Shared, p: U16)
    requires Known(s) && p in s.mux.table
    ensures forall q :: q in s.mux.table && q != p ==> s.mux.table[q].id != s.mux.table[p].id
    ensures s.mux.table[p].id !in s.left
  {
    assert EntryAt(s, p);
    forall q | q in s.mux.table && q != p ensures s.mux.table[q].id != s.mux.table[p].id {
      assert EntryAt(s, q);
    }
    assert s.mux.table[p].id in s.left ==> LeftAt(s, s.mux.table[p].id);
  }

  lemma OtherFlows(s: Shared, s': Shared, p: U16, o: Outcome, pieces: seq<Piece>, c: Conn)
    requires EntryEvent(s, s', p, o, pieces) && Flows(s, c) && c.id != o.conn.id
    ensures Flows(s', c)
  {
  }

  lemma EntryStreams(s: Shared, s': Shared, p: U16, o: Outcome, pieces: seq<Piece>)
    requires Known(s) && Streams(s) && EntryEvent(s, s', p, o, pieces)
    ensures Streams(s')
  {
    OtherIds(s, p);
    EntryFlows(s, s', p, o, pieces);
    forall q | q in s'.mux.table ensures Flows(s', s'.mux.table[q]) {
      if q != p {
        OtherFlows(s, s', p, o, pieces, s.mux.table[q]);
      }
    }
    forall id | id in s'.left ensures FormerFlows(s', id) {
      if id != o.conn.id {
        assert FormerFlows(s, id);
        OtherFlows(s, s', p, o, pieces, s.left[id].conn);
      }
    }
  }

  lemma ConnectFlows(s: Shared, dport: U16, c: Conn)
    requires Flows(s, c)
    ensures Flows(OnConnect(s, dport), c)
  {
    ConnectIs(s, dport);
  }

  lemma ConnectStreams(s: Shared, dport: U16)
    requires Known(s) && Streams(s)
    ensures Streams(OnConnect(s, dport))
  {
    var s', n := OnConnect(s, dport), s.mux.connects;
    ConnectIs(s, dport);
    assert n !in s.sent && n !in s.taken;
    forall q | q in s'.mux.table ensures Flows(s', s'.mux.table[q]) {
      if s'.mux.table[q].id != n {
        ConnectFlows(s, dport, s.mux.table[q]);
      }
    }
    forall id | id in s'.left ensures FormerFlows(s', id) {
      assert id in s.left ==> FormerFlows(s, id);
      ConnectFlows(s, dport, s'.left[id].conn);
    }
  }

  /** Nothing that the streams depend on has moved. */
  lemma SameStreams(s: Shared, s': Shared)
    requires Streams(s) && s'.sent == s.sent && s'.taken == s.taken && (CanSend(s'.mux.writer) ==> CanSend(s.mux.writer))
    requires s'.mux.table.Keys == s.mux.table.Keys && SameLeft(s, s')
    requires forall p :: p in s.mux.table ==> OnlyPermit(s.mux.table[p], s'.mux.table[p])
    ensures Streams(s')
  {
    forall q | q in s'.mux.table ensures Flows(s', s'.mux.table[q]) {
      assert Flows(s, s.mux.table[q]) && OnlyPermit(s.mux.table[q], s'.mux.table[q]);
    }
    forall id | id in s'.left ensures FormerFlows(s', id) {
      assert FormerFlows(s, id) && OnlyPermit(s.left[id].conn, s'.left[id].conn);
    }
  }

  // ---- whose bytes -------------------------------------------------------------------------

  /** Taken from its own pump, or from that of an earlier connection on its port. */
  predicate Origins(s: Shared, id: nat) {
    forall x :: x in Of(s.taken, id) ==> x.sender <= id && PortOf(x.sender) == PortOf(id)
  }

  /** The sender of a message some entry is about to act on. */
  lemma SenderOf(s: Shared, p: U16)
    requires Known(s) && s.queue != [] && Takes(s, s.queue[0]) && s.queue[0].port == p
    ensures var x, id := s.queue[0].sender, s.mux.table[p].id;
            && x in s.pumps && s.pumps[x].port == p && PortOf(x) == p == PortOf(id)
            && (x == id || (x < id && x in s.left))
  {
    assert PumpAt(s, s.queue[0].sender) && EntryAt(s, p);
    assert s.queue[0].sender in s.left ==> LeftAt(s, s.queue[0].sender);
  }

  lemma NextOrigins(s: Shared, e: Event, id: nat)
    requires Known(s) && Can(s, e) && Origins(s, id)
    ensures Origins(Next(s, e), id)
  {
    var k := Classify(s, e);
    match k {
      case Opens => ConnectIs(s, e.dport);
      case Entry(p, o, pieces) =>
        if pieces != [] && id == o.conn.id {
          SenderOf(s, p);
        }
      case Pumps(x) => PumpIs(s, e, x);
      case Nothing =>
    }
  }

  // ---- the replies -------------------------------------------------------------------------

  predicate Replied(s: Shared, id: nat) {
    exists i :: 0 <= i < |s.mux.replies| && s.mux.replies[i].id == id
  }

  /** The Connect waits for its reply in the table. */
  predicate Waits(s: Shared, id: nat) {
    Holds(s, id, PortOf(id)) && s.mux.table[PortOf(id)].reply
  }

  /** The Connect was still waiting when its entry was overwritten. */
  predicate Lost(s: Shared, id: nat) {
    id in s.left && s.left[id].conn.reply
  }

  ghost predicate Books(s: Shared) {
    && (forall i, j :: 0 <= i < j < |s.mux.replies| ==> s.mux.replies[i].id != s.mux.replies[j].id)
    && (forall i :: 0 <= i < |s.mux.replies| ==> s.mux.replies[i].id < s.mux.connects)
    && (forall id :: Waits(s, id) || Lost(s, id) ==> !Replied(s, id))
    && (forall id :: 0 <= id < s.mux.connects ==> Replied(s, id) || Waits(s, id) || Lost(s, id))
    && (forall id :: id in s.left ==> (s.left[id].conn.reply ==> s.left[id].why.None?))
  }

  /** Whoever is answered was waiting, and whoever stops waiting is answered. */
  lemma EntryWaits(s: Shared, s': Shared, p: U16, o: Outcome, pieces: seq<Piece>, id: nat)
    requires Known(s) && EntryEvent(s, s', p, o, pieces)
    ensures Lost(s', id) <==> Lost(s, id)
    ensures Waits(s', id) <==> Waits(s, id) && (id == o.conn.id ==> o.replies == [])
    ensures o.replies != [] ==> |o.replies| == 1 && o.replies[0].id == o.conn.id && Waits(s, o.conn.id)
  {
    OtherIds(s, p);
    assert EntryAt(s, p);
    if PortOf(id) in s.mux.table {
      assert EntryAt(s, PortOf(id));
    }
  }

  /** Replies grow by at most one, to `id`. */
  lemma RepliesGrow(s: Shared, s': Shared, more: seq<Answer>, id: nat)
    requires s'.mux.replies == s.mux.replies + more && |more| <= 1 && (more != [] ==> more[0].id == id)
    ensures forall x :: Replied(s', x) <==> Replied(s, x) || (more != [] && x == id)
  {
    forall x ensures Replied(s', x) <==> Replied(s, x) || (more != [] && x == id) {
      if i :| 0 <= i < |s.mux.replies| && s.mux.replies[i].id == x {
        assert s'.mux.replies[i].id == x;
      }
      if more != [] && x == id {
        assert s'.mux.replies[|s.mux.replies|].id == x;
      }
    }
  }

  lemma EntryBooks(s: Shared, s': Shared, p: U16, o: Outcome, pieces: seq<Piece>)
    requires Known(s) && Books(s) && EntryEvent(s, s', p, o, pieces)
    ensures Books(s')
  {
    forall id: nat ensures Lost(s', id) <==> Lost(s, id)
                   ensures Waits(s', id) <==> Waits(s, id) && (id == o.conn.id ==> o.replies == []) {
      EntryWaits(s, s', p, o, pieces, id);
    }
    EntryWaits(s, s', p, o, pieces, o.conn.id);
    RepliesGrow(s, s', o.replies, o.conn.id);
    assert EntryAt(s, p);
  }

  lemma ConnectWaits(s: Shared, dport: U16, id: nat)
    requires Known(s)
    ensures var s', p, n := OnConnect(s, dport), s.mux.nextPort, s.mux.connects;
            && (Lost(s', id) <==> Lost(s, id) || (CanSend(s.mux.writer) && Holds(s, id, p) && Waits(s, id)))
            && (Waits(s', id) <==> if CanSend(s.mux.writer) && p == PortOf(id) then id == n else Waits(s, id))
  {
    ConnectIs(s, dport);
    if s.mux.nextPort in s.mux.table {
      assert EntryAt(s, s.mux.nextPort);
      OtherIds(s, s.mux.nextPort);
    }
  }

  lemma ConnectBooks(s: Shared, dport: U16)
    requires Known(s) && Books(s)
    ensures Books(OnConnect(s, dport))
  {
    var s', n := OnConnect(s, dport), s.mux.connects;
    ConnectIs(s, dport);
    forall id: nat
      ensures Lost(s', id) <==> Lost(s, id) || (CanSend(s.mux.writer) && Holds(s, id, s.mux.nextPort) && Waits(s, id))
      ensures Waits(s', id) <==> if CanSend(s.mux.writer) && s.mux.nextPort == PortOf(id) then id == n else Waits(s, id)
    {
      ConnectWaits(s, dport, id);
    }
    var more := if CanSend(s.mux.writer) then [] else [Answer(n, false)];
    assert s.mux.replies + [] == s.mux.replies;
    RepliesGrow(s, s', more, n);
    assert PortOf(n) in s.mux.table ==> EntryAt(s, PortOf(n));
    assert n in s.left ==> LeftAt(s, n);
  }

  lemma SameBooks(s: Shared, s': Shared)
    requires Books(s) && s'.mux.replies == s.mux.replies && s'.mux.connects == s.mux.connects
    requires s'.mux.table.Keys == s.mux.table.Keys && SameLeft(s, s')
    requires forall p :: p in s.mux.table ==> OnlyPermit(s.mux.table[p], s'.mux.table[p])
    ensures Books(s')
  {
    forall id: nat ensures (Waits(s', id) <==> Waits(s, id)) && (Lost(s', id) <==> Lost(s, id)) {
      assert id in s.left ==> OnlyPermit(s.left[id].conn, s'.left[id].conn);
      assert PortOf(id) in s.mux.table ==> OnlyPermit(s.mux.table[PortOf(id)], s'.mux.table[PortOf(id)]);
    }
    forall id: nat ensures Replied(s', id) <==> Replied(s, id) {
    }
  }

  // ---- every event -------------------------------------------------------------------------

  ghost predicate Inv(s: Shared) {
    Known(s) && Gated(s) && Streams(s) && Books(s) && (forall id :: Origins(s, id))
  }

  /** What an event is to the connections: a Connect, an outcome for one entry, a step of one pump, or
      nothing. */
  datatype Kind = Opens | Entry(p: U16, o: Outcome, pieces: seq<Piece>) | Pumps(id: nat) | Nothing

  ghost predicate IsKind(s: Shared, e: Event, k: Kind)
    requires Can(s, e)
  {
    match k
    case Opens => e.Connect?
    case Entry(p, o, pieces) =>
      EntryEvent(s, Next(s, e), p, o, pieces) && (pieces != [] ==> e.Process?)
    case Pumps(id) => IsPumpEvent(e, id)
    case Nothing => Aside(s, Next(s, e))
  }

  lemma Classify(s: Shared, e: Event) returns (k: Kind)
    requires Known(s) && Can(s, e)
    ensures IsKind(s, e, k)
  {
    KnownLive(s);
    match e {
      case Connect(_) => k := Opens;
      case Packet(seg, userAlive) =>
        PacketIs(s, seg, userAlive);
        k := if seg.dst in s.mux.table then
               Entry(seg.dst, Segment(s.mux.writer, s.mux.table[seg.dst], seg, userAlive), [])
             else Nothing;
      case Drain(p, n) =>
        DrainIs(s, p, n);
        k := if p in s.mux.table then Entry(p, DrainReport(s.mux.writer, s.mux.table[p], n), []) else Nothing;
      case Process => k := ClassifyProcess(s);
      case PumpChecks(id) => k := Pumps(id);
      case PumpWakes(id) => k := Pumps(id);
      case PumpReads(id, _) => k := Pumps(id);
      case PumpSeesEof(id) => k := Pumps(id);
      case PumpSends(id) => k := Pumps(id);
    }
  }

  lemma ClassifyProcess(s: Shared) returns (k: Kind)
    requires Known(s) && s.queue != []
    ensures IsKind(s, Process, k) && !k.Opens?
  {
    KnownLive(s);
    ProcessIs(s);
    var msg := s.queue[0];
    if Takes(s, msg) {
      var o := ClientMessage(s.mux.writer, s.mux.table[msg.port], msg.payload);
      k := Entry(msg.port, o, [Piece(msg.sender, msg.payload)]);
    } else {
      k := Nothing;
    }
  }

  lemma PumpKeeps(s: Shared, e: Event, id: nat)
    requires Inv(s) && Can(s, e) && IsPumpEvent(e, id)
    ensures Known(Next(s, e)) && Gated(Next(s, e)) && Streams(Next(s, e)) && Books(Next(s, e))
  {
    PumpIs(s, e, id);
    PumpKnown(s, e, id);
    PumpGated(s, e, id);
    SameStreams(s, Next(s, e));
    SameBooks(s, Next(s, e));
  }

  lemma AsideKeeps(s: Shared, s': Shared)
    requires Inv(s) && Aside(s, s')
    ensures Known(s') && Gated(s') && Streams(s') && Books(s')
  {
    AsideKnown(s, s');
    AsideGated(s, s');
    SameStreams(s, s');
    SameBooks(s, s');
  }

  lemma NextKeeps(s: Shared, e: Event)
    requires Inv(s) && Can(s, e)
    ensures Inv(Next(s, e))
  {
    forall id ensures Origins(Next(s, e), id) {
      NextOrigins(s, e, id);
    }
    NextKeepsRest(s, e);
  }

  lemma NextKeepsRest(s: Shared, e: Event)
    requires Inv(s) && Can(s, e)
    ensures Known(Next(s, e)) && Gated(Next(s, e)) && Streams(Next(s, e)) && Books(Next(s, e))
  {
    var k := Classify(s, e);
    match k {
      case Opens =>
        ConnectKnown(s, e.dport);
        ConnectGated(s, e.dport);
        ConnectStreams(s, e.dport);
        ConnectBooks(s, e.dport);
      case Entry(p, o, pieces) =>
        EntryKnown(s, Next(s, e), p, o, pieces);
        EntryGated(s, Next(s, e), p, o, pieces);
        EntryStreams(s, Next(s, e), p, o, pieces);
        EntryBooks(s, Next(s, e), p, o, pieces);
      case Pumps(id) => PumpKeeps(s, e, id);
      case Nothing => AsideKeeps(s, Next(s, e));
    }
  }

  /** Every run keeps the invariant, with no guard on Connects at all. */
  lemma {:induction false} RunKeeps(s: Shared, events: seq<Event>)
    requires Inv(s) && IsRun(s, events)
    ensures Inv(Run(s, events))
    decreases |events|
  {
    if events != [] {
      NextKeeps(s, events[0]);
      RunKeeps(Next(s, events[0]), events[1..]);
    }
  }

  lemma ReachableInv(s: Shared)
    requires Reachable(s)
    ensures Inv(s)
  {
    var w, events :| IsRun(Init(w), events) && Run(Init(w), events) == s;
    RunKeeps(Init(w), events);
  }
}
