/** What one event does to one virtual connection: the bodies of the `run` loop arms and of
    handle_incoming in src/usb/mux.rs as functions of the connection's fields, together with the
    facts about `Flush` (flush_pending) that everything else rests on. */
module ConnSpec {
  import opened Prelude
  import opened Codec

  const RX_WINDOW: U32 := 131072
  const TX_HIGH_WATER := 1024 * 1024
  const TX_LOW_WATER := 256 * 1024

  datatype ConnState = Connecting | Connected | Dead

  /** The fields of `Connection`. `id` is the ordinal of the Connect command that opened it: it
      names the oneshot behind `connect_reply`, which is pending exactly while `reply` holds.
      `rxTx` says whether the delivery channel is held; `txPause` and `resumePermit` are the
      AtomicBool and the stored permit of the Notify shared with the pump. */
  datatype Conn = Conn(
    id: nat,
    sport: U16,
    dport: U16,
    state: ConnState,
    txSeq: U32,
    txAck: U32,
    rxSeq: U32,
    rxAck: U32,
    rxWin: U32,
    reply: bool,
    rxTx: bool,
    rxBuffered: U32,
    pending: Bytes,
    clientClosed: bool,
    txPause: bool,
    resumePermit: bool)

  /** The channel to the writer task. `ClosesAfter(n)` is a writer task that stops receiving after
      n more frames, so that a handler can see any of its sends be the first to fail. */
  datatype Writer = Open | ClosesAfter(left: nat)

  predicate CanSend(w: Writer) {
    w.Open? || 0 < w.left
  }

  function AfterSend(w: Writer): Writer {
    if w.Open? || w.left == 0 then w else ClosesAfter(w.left - 1)
  }

  datatype Why = Refused | ResetByDevice | BadFlags | UserGone | SendFailed | Drained | ShutDown

  datatype Fate = Stay | Gone(why: Why)

  datatype Answer = Answer(id: nat, ok: bool)

  /** Everything one event does: frames sent, the connection afterwards and whether it stays in the
      table, replies resolved, payloads handed to the delivery channel. */
  datatype Outcome = Outcome(
    w: Writer,
    segs: seq<Seg>,
    conn: Conn,
    fate: Fate,
    replies: seq<Answer>,
    deliver: seq<Bytes>)

  // ---- sending ---------------------------------------------------------------------------

  /** The window field: free receive space in 256-byte units. */
  function WindowField(rxBuffered: U32): U16 {
    SatSub(RX_WINDOW, rxBuffered) / 256
  }

  function SegOf(c: Conn, flags: Byte, payload: Bytes): Seg {
    Seg(c.sport, c.dport, c.txSeq, c.txAck, flags, WindowField(c.rxBuffered), payload)
  }

  function Fits(payload: Bytes): bool {
    V2_HEADER_SIZE + TCP_HEADER_SIZE + |payload| <= USB_MTU
  }

  /** send_tcp succeeds exactly if the frame fits and the writer task still receives. */
  predicate SendOk(w: Writer, payload: Bytes) {
    Fits(payload) && CanSend(w)
  }

  function SendWriter(w: Writer, payload: Bytes): Writer {
    if Fits(payload) then AfterSend(w) else w
  }

  function SendSegs(w: Writer, c: Conn, flags: Byte, payload: Bytes): seq<Seg> {
    if SendOk(w, payload) then [SegOf(c, flags, payload)] else []
  }

  // ---- flush_pending ---------------------------------------------------------------------

  datatype Flushed = Flushed(ok: bool, w: Writer, segs: seq<Seg>, conn: Conn)

  function InFlight(c: Conn): U32 {
    Sub32(c.txSeq, c.rxAck)
  }

  function ChunkLen(c: Conn): nat
    requires InFlight(c) < c.rxWin
  {
    Min(Min(|c.pending|, MAX_PAYLOAD), c.rxWin - InFlight(c))
  }

  function FlushLoop(w: Writer, c: Conn): Flushed
    decreases |c.pending|
  {
    if c.pending == [] || InFlight(c) >= c.rxWin then Flushed(true, w, [], c)
    else
      var chunk := c.pending[..ChunkLen(c)];
      var c1 := c.(pending := c.pending[ChunkLen(c)..]);
      if SendOk(w, chunk) then
        var r := FlushLoop(SendWriter(w, chunk), c1.(txSeq := Add32(c.txSeq, |chunk|)));
        r.(segs := [SegOf(c1, ACK, chunk)] + r.segs)
      else
        Flushed(false, SendWriter(w, chunk), [], c1)
  }

  function Resume(c: Conn): Conn {
    if c.txPause && |c.pending| < TX_LOW_WATER then c.(txPause := false, resumePermit := true) else c
  }

  function Flush(w: Writer, c: Conn): Flushed {
    var r := FlushLoop(w, c);
    if r.ok then r.(conn := Resume(r.conn)) else r
  }

  // ---- the events ------------------------------------------------------------------------

  /** teardown: the entry leaves the table, its delivery channel closes, a pending Connect fails. */
  function TearDown(c: Conn): Conn {
    c.(state := Dead, rxTx := false, reply := false)
  }

  function FailReply(c: Conn): seq<Answer> {
    if c.reply then [Answer(c.id, false)] else []
  }

  /** next_sport.wrapping_add(1).max(1) */
  function NextPort(p: U16): U16 {
    Max((p + 1) % 0x1_0000, 1)
  }

  /** The Connect arm. */
  function Fresh(id: nat, sport: U16, dport: U16): Conn {
    Conn(id, sport, dport, Connecting, 0, 0, 0, 0, 0, true, false, 0, [], false, false, false)
  }

  function Opened(w: Writer, id: nat, sport: U16, dport: U16): Outcome {
    var c := Fresh(id, sport, dport);
    if SendOk(w, []) then Outcome(SendWriter(w, []), [SegOf(c, SYN, [])], c, Stay, [], [])
    else Outcome(SendWriter(w, []), [], TearDown(c), Gone(SendFailed), [Answer(id, false)], [])
  }

  /** The client-data arm, for `Some(bytes)`. */
  function ClientData(w: Writer, c: Conn, bytes: Bytes): Outcome {
    if !c.state.Connected? then Outcome(w, [], c, Stay, [], [])
    else
      var r := Flush(w, c.(pending := c.pending + bytes));
      if !r.ok then Outcome(r.w, r.segs, TearDown(r.conn), Gone(SendFailed), FailReply(r.conn), [])
      else
        var c1 := if |r.conn.pending| > TX_HIGH_WATER then r.conn.(txPause := true) else r.conn;
        Outcome(r.w, r.segs, c1, Stay, [], [])
  }

  /** Best-effort RST followed by teardown. */
  function ResetAndRemove(w: Writer, segs: seq<Seg>, c: Conn, why: Why): Outcome {
    Outcome(SendWriter(w, []), segs + SendSegs(w, c, RST, []), TearDown(c), Gone(why), FailReply(c), [])
  }

  /** The client-data arm, for `None`: the client has closed its stream. */
  function ClientClose(w: Writer, c: Conn): Outcome {
    if !c.state.Connected? then Outcome(w, [], c, Stay, [], [])
    else
      var r := Flush(w, c.(clientClosed := true));
      if !r.ok then ResetAndRemove(r.w, r.segs, r.conn, SendFailed)
      else if r.conn.pending == [] then ResetAndRemove(r.w, r.segs, r.conn, Drained)
      else Outcome(r.w, r.segs, r.conn, Stay, [], [])
  }

  function ClientMessage(w: Writer, c: Conn, msg: Option<Bytes>): Outcome {
    match msg
    case Some(bytes) => ClientData(w, c, bytes)
    case None => ClientClose(w, c)
  }

  /** The drain arm: `n` bytes reached the client. A window update goes out when free space
      crosses MAX_PAYLOAD upwards. */
  function DrainReport(w: Writer, c: Conn, n: U32): Outcome {
    var c1 := c.(rxBuffered := SatSub(c.rxBuffered, n));
    if c.state.Connected?
       && SatSub(RX_WINDOW, c.rxBuffered) < MAX_PAYLOAD
       && SatSub(RX_WINDOW, c1.rxBuffered) >= MAX_PAYLOAD
    then Outcome(SendWriter(w, []), SendSegs(w, c1, ACK, []), c1, Stay, [], [])
    else Outcome(w, [], c1, Stay, [], [])
  }

  /** A SYN/ACK for a connecting entry. If the ACK cannot be sent the handler returns early, with
      the counters already moved and the entry still connecting. */
  function Established(w: Writer, c: Conn): Outcome {
    var c1 := c.(txSeq := Add32(c.txSeq, 1), txAck := Add32(c.txAck, 1));
    if SendOk(w, []) then
      Outcome(SendWriter(w, []), [SegOf(c1, ACK, [])], c1.(state := Connected, rxTx := true, reply := false), Stay,
              if c.reply then [Answer(c.id, true)] else [], [])
    else Outcome(SendWriter(w, []), [], c1, Stay, [], [])
  }

  /** The end of the ACK branch: flush what the new window allows, and finish a deferred close. */
  function FlushAndClose(w: Writer, segs: seq<Seg>, c: Conn, deliver: seq<Bytes>): Outcome {
    var r := Flush(w, c);
    var o := Outcome(r.w, segs + r.segs, r.conn, Stay, [], deliver);
    if !r.ok || !r.conn.clientClosed || r.conn.pending != [] then o
    else if SendOk(r.w, []) then
      ResetAndRemove(r.w, o.segs, r.conn, Drained).(deliver := deliver)
    else o.(w := SendWriter(r.w, []))
  }

  /** FlushAndClose only appends to what was sent before it. */
  lemma FlushAndClosePrefix(w: Writer, segs: seq<Seg>, c: Conn, deliver: seq<Bytes>)
    ensures var o0 := FlushAndClose(w, [], c, []);
            FlushAndClose(w, segs, c, deliver)
            == o0.(segs := segs + o0.segs, deliver := deliver)
  {
    var r := Flush(w, c);
    var extra := SendSegs(r.w, r.conn, RST, []);
    assert [] + r.segs == r.segs;
    assert segs + (r.segs + extra) == segs + r.segs + extra;
  }

  /** An ACK-only segment for a connected entry, with or without payload. `userAlive` says whether
      the forwarder still receives. */
  function AckSegment(w: Writer, c: Conn, payload: Bytes, userAlive: bool): Outcome {
    if payload == [] then FlushAndClose(w, [], c, [])
    else if !userAlive || !c.rxTx then ResetAndRemove(w, [], c, UserGone)
    else
      var len := |payload| % 0x1_0000_0000;
      var c1 := c.(rxBuffered := SatAdd32(c.rxBuffered, len), txAck := Add32(c.txAck, len));
      if SendOk(w, []) then FlushAndClose(SendWriter(w, []), [SegOf(c1, ACK, [])], c1, [payload])
      else Outcome(SendWriter(w, []), [], c1, Stay, [], [payload])
  }

  /** A TCP segment from the device for an entry of the table. */
  function Segment(w: Writer, c: Conn, s: Seg, userAlive: bool): Outcome {
    var c0 := c.(rxSeq := s.seq_, rxAck := s.ack, rxWin := s.window * 256);
    match c.state
    case Connecting =>
      if s.flags == SYN + ACK then Established(w, c0)
      else Outcome(w, [], TearDown(c0), Gone(Refused), FailReply(c0), [])
    case Connected =>
      if HasRst(s.flags) then Outcome(w, [], TearDown(c0), Gone(ResetByDevice), FailReply(c0), [])
      else if s.flags != ACK then Outcome(w, [], TearDown(c0), Gone(BadFlags), FailReply(c0), [])
      else AckSegment(w, c0, s.payload, userAlive)
    case Dead => Outcome(w, [], c0, Stay, [], [])
  }

  /** A segment for a port with no entry: answered with a RST unless it is one itself. */
  function Stranger(s: Seg): seq<Seg> {
    if HasRst(s.flags) then []
    else [Seg(s.dst, s.src, 0, s.seq_, RST, WindowField(0), [])]
  }

  // ---- what a list of segments says ------------------------------------------------------

  function DataOf(segs: seq<Seg>): Bytes {
    if segs == [] then [] else segs[0].payload + DataOf(segs[1..])
  }

  lemma DataOfCons(s: Seg, rest: seq<Seg>)
    ensures DataOf([s] + rest) == s.payload + DataOf(rest)
  {
    assert ([s] + rest)[1..] == rest;
  }

  lemma {:induction false} DataOfAppend(a: seq<Seg>, b: seq<Seg>)
    ensures DataOf(a + b) == DataOf(a) + DataOf(b)
  {
    if a == [] {
      assert a + b == b;
    } else {
      assert (a + b)[1..] == a[1..] + b;
      DataOfAppend(a[1..], b);
    }
  }

  /** Every segment's sequence number is `base` plus the payload bytes in front of it, mod 2^32. */
  predicate Numbered(segs: seq<Seg>, base: nat) {
    segs == [] || (segs[0].seq_ == base % 0x1_0000_0000 && Numbered(segs[1..], base + |segs[0].payload|))
  }

  lemma {:induction false} NumberedAppend(a: seq<Seg>, b: seq<Seg>, base: nat)
    ensures Numbered(a + b, base) <==> Numbered(a, base) && Numbered(b, base + |DataOf(a)|)
  {
    if a == [] {
      assert a + b == b;
    } else {
      assert (a + b)[1..] == a[1..] + b;
      NumberedAppend(a[1..], b, base + |a[0].payload|);
    }
  }

  lemma NumberedCons(s: Seg, rest: seq<Seg>, base: nat)
    requires s.seq_ == base % 0x1_0000_0000 && Numbered(rest, base + |s.payload|)
    ensures Numbered([s] + rest, base)
  {
    assert ([s] + rest)[1..] == rest;
  }

  lemma NumberedSnoc(segs: seq<Seg>, s: Seg, base: nat)
    requires Numbered(segs, base) && s.seq_ == (base + |DataOf(segs)|) % 0x1_0000_0000
    ensures Numbered(segs + [s], base)
  {
    NumberedCons(s, [], base + |DataOf(segs)|);
    NumberedAppend(segs, [s], base);
    assert [s] + [] == [s];
  }

  lemma DataOfSnoc(segs: seq<Seg>, s: Seg)
    ensures DataOf(segs + [s]) == DataOf(segs) + s.payload
  {
    DataOfAppend(segs, [s]);
    DataOfCons(s, []);
    assert [s] + [] == [s];
  }

  /** Only the base's image mod 2^32 matters. */
  lemma {:induction false} NumberedShift(segs: seq<Seg>, base: nat, base': nat)
    requires base % 0x1_0000_0000 == base' % 0x1_0000_0000
    ensures Numbered(segs, base) <==> Numbered(segs, base')
  {
    if segs != [] {
      var n: nat := |segs[0].payload|;
      Add32Mod(base, n);
      Add32Mod(base', n);
      NumberedShift(segs[1..], base + n, base' + n);
    }
  }

  lemma {:induction false} NumberedAt(segs: seq<Seg>, base: nat, i: nat)
    requires i < |segs|
    requires Numbered(segs, base)
    ensures segs[i].seq_ == (base + |DataOf(segs[..i])|) % 0x1_0000_0000
  {
    if i > 0 {
      NumberedAt(segs[1..], base + |segs[0].payload|, i - 1);
      assert segs[..i][1..] == segs[1..][..i - 1];
    }
  }

  // ---- what Flush achieves ---------------------------------------------------------------

  /** How many bytes the device's window lets through right now. */
  function Room(c: Conn): nat {
    SatSub(c.rxWin, InFlight(c))
  }

  /** A segment as flush_pending sends it: nonempty, below the MTU, and ending inside the window
      the device last advertised, whatever the device did before. */
  predicate InWindow(c: Conn, s: Seg) {
    && s.src == c.sport && s.dst == c.dport
    && s.flags == ACK && s.ack == c.txAck && s.window == WindowField(c.rxBuffered)
    && 0 < |s.payload| <= MAX_PAYLOAD
    && Sub32(s.seq_, c.rxAck) + |s.payload| <= c.rxWin
  }

  lemma ChunkStep(c: Conn)
    requires c.pending != [] && InFlight(c) < c.rxWin
    ensures 0 < ChunkLen(c) <= |c.pending|
    ensures Fits(c.pending[..ChunkLen(c)])
    ensures InWindow(c, SegOf(c.(pending := c.pending[ChunkLen(c)..]), ACK, c.pending[..ChunkLen(c)]))
    ensures Sub32(Add32(c.txSeq, ChunkLen(c)), c.rxAck) == InFlight(c) + ChunkLen(c)
  {
    var n := ChunkLen(c);
    var d := InFlight(c);
    assert (Add32(c.txSeq, n) - c.rxAck - (d + n)) % 0x1_0000_0000 == 0;
  }

  lemma ChunkFits(c: Conn)
    requires c.pending != [] && InFlight(c) < c.rxWin
    ensures 0 < ChunkLen(c) <= |c.pending|
    ensures Fits(c.pending[..ChunkLen(c)])
  {
  }

  /** One turn of the loop, folded up: the recursion continues from `FlushNext`. */
  function FlushNext(c: Conn): Conn
    requires c.pending != [] && InFlight(c) < c.rxWin
  {
    c.(pending := c.pending[ChunkLen(c)..], txSeq := Add32(c.txSeq, ChunkLen(c)))
  }

  lemma FlushTurn(w: Writer, c: Conn)
    requires c.pending != [] && InFlight(c) < c.rxWin && CanSend(w)
    ensures 0 < ChunkLen(c) <= |c.pending|
    ensures var r0 := FlushLoop(AfterSend(w), FlushNext(c));
            FlushLoop(w, c) == r0.(segs := [FlushSeg(c)] + r0.segs)
  {
    ChunkStep(c);
  }

  /** The segment one turn of the loop sends. */
  function FlushSeg(c: Conn): (s: Seg)
    requires c.pending != [] && InFlight(c) < c.rxWin
    ensures s.payload + FlushNext(c).pending == c.pending
  {
    ChunkStep(c);
    SegOf(c.(pending := c.pending[ChunkLen(c)..]), ACK, c.pending[..ChunkLen(c)])
  }

  lemma FlushUnfold(w: Writer, c: Conn)
    requires c.pending != [] && InFlight(c) < c.rxWin
    requires FlushLoop(w, c).ok
    ensures CanSend(w) && 0 < ChunkLen(c) <= |c.pending|
    ensures var r, r0 := FlushLoop(w, c), FlushLoop(AfterSend(w), FlushNext(c));
            && r0.ok && r.conn == r0.conn
            && |DataOf(r.segs)| == ChunkLen(c) + |DataOf(r0.segs)|
  {
    ChunkStep(c);
    FlushTurn(w, c);
    DataOfCons(FlushSeg(c), FlushLoop(AfterSend(w), FlushNext(c)).segs);
  }

  /** Whether or not a send fails midway, what went out is a prefix of what was pending, in order. */
  lemma {:induction false} FlushSends(w: Writer, c: Conn)
    ensures DataOf(FlushLoop(w, c).segs) <= c.pending
    decreases |c.pending|
  {
    if c.pending != [] && InFlight(c) < c.rxWin && CanSend(w) {
      FlushTurn(w, c);
      FlushSends(AfterSend(w), FlushNext(c));
      DataOfCons(FlushSeg(c), FlushLoop(AfterSend(w), FlushNext(c)).segs);
    }
  }

  lemma TurnNumbers(c: Conn, rest: seq<Seg>)
    requires c.pending != [] && InFlight(c) < c.rxWin && 0 < ChunkLen(c) <= |c.pending|
    requires Numbered(rest, FlushNext(c).txSeq)
    ensures Numbered([FlushSeg(c)] + rest, c.txSeq)
  {
    var n := ChunkLen(c);
    var s := FlushSeg(c);
    assert FlushNext(c).txSeq == (c.txSeq + n) % 0x1_0000_0000;
    NumberedShift(rest, FlushNext(c).txSeq, c.txSeq + n);
    assert s.seq_ == c.txSeq && |s.payload| == n;
    NumberedCons(s, rest, c.txSeq);
  }

  /** And it is numbered without gaps from the connection's sequence number. */
  lemma {:induction false} FlushNumbers(w: Writer, c: Conn)
    ensures Numbered(FlushLoop(w, c).segs, c.txSeq)
    decreases |c.pending|
  {
    if c.pending != [] && InFlight(c) < c.rxWin && CanSend(w) {
      FlushTurn(w, c);
      FlushNumbers(AfterSend(w), FlushNext(c));
      TurnNumbers(c, FlushLoop(AfterSend(w), FlushNext(c)).segs);
    }
  }

  /** Every segment a flush sends ends inside the window the device last advertised. */
  lemma {:induction false} FlushStaysInWindow(w: Writer, c: Conn)
    ensures forall s :: s in FlushLoop(w, c).segs ==> InWindow(c, s)
    decreases |c.pending|
  {
    if c.pending != [] && InFlight(c) < c.rxWin {
      ChunkStep(c);
      var chunk := c.pending[..ChunkLen(c)];
      if SendOk(w, chunk) {
        FlushStaysInWindow(AfterSend(w), FlushNext(c));
        forall s | s in FlushLoop(AfterSend(w), FlushNext(c)).segs ensures InWindow(c, s) {
          assert InWindow(FlushNext(c), s);
        }
      }
    }
  }

  /** `c` after sending its first `n` pending bytes. */
  function Advanced(c: Conn, n: nat): Conn
    requires n <= |c.pending|
  {
    c.(txSeq := Add32(c.txSeq, n), pending := c.pending[n..])
  }

  lemma AdvanceTwice(c: Conn, k: nat, m: nat)
    requires k <= |c.pending| && m <= |c.pending| - k
    ensures Advanced(Advanced(c, k), m) == Advanced(c, k + m)
  {
    assert c.pending[k..][m..] == c.pending[k + m..];
    assert Add32(Add32(c.txSeq, k), m) == Add32(c.txSeq, k + m);
  }

  /** A flush that succeeds moves nothing but `txSeq` and `pending`, by as many bytes as it sent. */
  lemma {:induction false} FlushMoves(w: Writer, c: Conn)
    requires FlushLoop(w, c).ok
    ensures |DataOf(FlushLoop(w, c).segs)| <= |c.pending|
    ensures FlushLoop(w, c).conn == Advanced(c, |DataOf(FlushLoop(w, c).segs)|)
    decreases |c.pending|
  {
    if c.pending != [] && InFlight(c) < c.rxWin {
      FlushUnfold(w, c);
      var k := ChunkLen(c);
      assert FlushNext(c) == Advanced(c, k);
      FlushMoves(AfterSend(w), FlushNext(c));
      AdvanceTwice(c, k, |DataOf(FlushLoop(AfterSend(w), FlushNext(c)).segs)|);
    } else {
      assert c.pending[0..] == c.pending;
    }
  }

  /** It never overruns the window, and stops only with nothing pending or the window full. */
  lemma {:induction false} FlushEnds(w: Writer, c: Conn)
    requires FlushLoop(w, c).ok
    ensures var r := FlushLoop(w, c);
            var n := |DataOf(r.segs)|;
            && InFlight(r.conn) == InFlight(c) + n
            && r.conn.rxWin == c.rxWin
            && (0 < n ==> InFlight(r.conn) <= c.rxWin)
            && (r.conn.pending == [] || InFlight(r.conn) >= c.rxWin)
    decreases |c.pending|
  {
    if c.pending != [] && InFlight(c) < c.rxWin {
      FlushUnfold(w, c);
      ChunkStep(c);
      FlushEnds(AfterSend(w), FlushNext(c));
    }
  }

  /** In particular it sends exactly the bytes that are pending and fit the window. */
  lemma FlushCount(w: Writer, c: Conn)
    requires FlushLoop(w, c).ok
    ensures |DataOf(FlushLoop(w, c).segs)| == Min(|c.pending|, Room(c))
  {
    FlushMoves(w, c);
    FlushEnds(w, c);
  }

  /** All its segments but the last are as long as a segment can be. */
  predicate Filled(segs: seq<Seg>) {
    forall i :: 0 <= i < |segs| - 1 ==> |segs[i].payload| == 49116
  }

  lemma FilledCons(s: Seg, rest: seq<Seg>)
    requires Filled(rest) && (rest != [] ==> |s.payload| == 49116)
    ensures Filled([s] + rest)
  {
    forall i | 0 <= i < |rest| ensures |([s] + rest)[i].payload| == 49116 {
      assert i > 0 ==> ([s] + rest)[i] == rest[i - 1];
    }
  }

  /** After a shorter chunk the window is full or nothing is left. */
  lemma ShortEnds(w: Writer, c: Conn)
    requires c.pending != [] && InFlight(c) < c.rxWin && ChunkLen(c) < 49116
    ensures FlushLoop(w, FlushNext(c)).segs == []
  {
    ChunkStep(c);
  }

  lemma {:induction false} FlushFills(w: Writer, c: Conn)
    ensures Filled(FlushLoop(w, c).segs)
    decreases |c.pending|
  {
    if c.pending != [] && InFlight(c) < c.rxWin && CanSend(w) {
      FlushTurn(w, c);
      FlushFills(AfterSend(w), FlushNext(c));
      if ChunkLen(c) < 49116 {
        ShortEnds(AfterSend(w), c);
      }
      FilledCons(FlushSeg(c), FlushLoop(AfterSend(w), FlushNext(c)).segs);
    }
  }

  /** A flush fails only on a closed writer channel, never on the MTU limit; a failed one leaves
      alone everything but `txSeq` and `pending`, and leaves no more pending than before. */
  lemma {:induction false} FlushFails(w: Writer, c: Conn)
    ensures var r := FlushLoop(w, c);
            && (r.ok <== CanSend(r.w))
            && (CanSend(r.w) ==> CanSend(w))
            && (r.segs != [] ==> CanSend(w))
            && r.conn == c.(txSeq := r.conn.txSeq, pending := r.conn.pending)
            && |r.conn.pending| <= |c.pending|
    decreases |c.pending|
  {
    if c.pending != [] && InFlight(c) < c.rxWin {
      ChunkStep(c);
      var chunk := c.pending[..ChunkLen(c)];
      if SendOk(w, chunk) {
        FlushFails(SendWriter(w, chunk),
                   c.(pending := c.pending[ChunkLen(c)..], txSeq := Add32(c.txSeq, |chunk|)));
      }
    }
  }
}
