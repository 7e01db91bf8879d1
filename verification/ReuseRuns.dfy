/** Early reuse of a source port does mix connections up: runs that reach it. */
module ReuseRuns {
  import opened Prelude
  import opened Codec
  import opened ConnSpec
  import opened PortReuse
  import opened ReuseProofs
  import opened Mixing
  import Lane
  import ReuseTheorems
  import StalePumps
  import System
  import SystemProofs

  // ---- one cycle of Connects ---------------------------------------------------------------

  /** `n` Connects have been processed, the device has said nothing to any but the first, and there
      is no message under way. */
  predicate Turned(s: Shared, n: nat) {
    && s.mux.writer == Open && s.mux.connects == n && s.mux.nextPort == PortOf(n) && s.queue == []
    && 0 in s.pumps && s.pumps[0].port == 1
  }

  lemma OneMore(s: Shared, n: nat)
    requires Turned(s, n) && 1 <= n < System.PORTS
    ensures var s' := Next(s, Connect(0));
            Turned(s', n + 1) && Untouched(s, s')
  {
    ConnectIs(s, 0);
    assert s.mux.nextPort == n + 1;
    SystemProofs.NextPortCycles(n);
  }

  /** Port 1 and its pump are as they were. */
  predicate Untouched(s: Shared, s': Shared) {
    && s'.pumps == s.pumps && s'.taken == s.taken && s'.sent == s.sent
    && (1 in s'.mux.table <==> 1 in s.mux.table)
    && (1 in s.mux.table ==> s'.mux.table[1] == s.mux.table[1])
  }

  lemma OneTurn(s: Shared, n: nat) returns (s': Shared)
    requires Reachable(s) && Turned(s, n) && 1 <= n < System.PORTS
    ensures Reachable(s') && Turned(s', n + 1) && Untouched(s, s')
  {
    OneMore(s, n);
    Reaches(s, Connect(0));
    s' := Next(s, Connect(0));
  }

  /** From the first Connect on, the rest of a cycle leaves port 1 and its pump alone. */
  lemma {:induction false} FullCycle(s: Shared, n: nat) returns (s': Shared)
    requires Reachable(s) && Turned(s, 1) && 1 <= n <= System.PORTS
    ensures Reachable(s') && Turned(s', n) && Untouched(s, s')
  {
    if n == 1 {
      s' := s;
    } else {
      var s0 := FullCycle(s, n - 1);
      s' := OneTurn(s0, n - 1);
    }
  }

  lemma FirstConnect() returns (s: Shared)
    ensures Reachable(s) && s.mux.table == map[1 := Fresh(0, 1, 0)] && s.mux.writer == Open
    ensures s.mux.connects == 1 && s.mux.nextPort == PortOf(1)
    ensures s.pumps == map[] && s.queue == [] && s.taken == map[] && s.left == map[]
  {
    var s0 := Init(Open);
    assert IsRun(s0, []) && Run(s0, []) == s0;
    Reaches(s0, Connect(0));
    s := Next(s0, Connect(0));
  }

  /** The device accepts the connection on port 1, with a closed window. */
  lemma Accepts(s: Shared, id: nat) returns (s': Shared)
    requires Reachable(s) && s.mux.writer == Open && s.mux.table.Keys >= {1} && s.mux.table[1] == Fresh(id, 1, 0)
    ensures Reachable(s') && s'.mux.writer == Open && s'.queue == s.queue && s'.taken == s.taken && s'.left == s.left
    ensures s'.mux.connects == s.mux.connects && s'.mux.nextPort == s.mux.nextPort
    ensures s'.mux.table.Keys == s.mux.table.Keys
    ensures s'.mux.table[1] == Fresh(id, 1, 0).(state := Connected, txSeq := 1, txAck := 1, reply := false, rxTx := true)
    ensures s'.pumps == s.pumps[id := Pump(1, Lane.Checking)]
  {
    Reaches(s, Accept(1));
    s' := Next(s, Accept(1));
  }

  // ---- another's bytes, and another's close ------------------------------------------------

  lemma FirstAccepted() returns (s: Shared)
    ensures Reachable(s) && Turned(s, 1) && s.taken == map[] && s.left == map[]
    ensures s.pumps == map[0 := Pump(1, Lane.Checking)] && 1 in s.mux.table
    ensures s.mux.table[1] == Fresh(0, 1, 0).(state := Connected, txSeq := 1, txAck := 1, reply := false, rxTx := true)
  {
    var s1 := FirstConnect();
    s := Accepts(s1, 0);
  }

  /** Port 1 is in use again, by connection 65535, established; the pump of the first connection
      still runs, and neither has sent anything. */
  predicate Reused(s: Shared) {
    && s.mux.writer == Open && s.queue == [] && s.taken == map[]
    && 1 in s.mux.table && s.mux.table[1].id == System.PORTS && s.mux.table[1].state.Connected?
    && s.mux.table[1].pending == [] && s.mux.table[1].rxWin == 0 && !s.mux.table[1].clientClosed
    && 0 in s.pumps && s.pumps[0] == Pump(1, Lane.Checking) && 0 in s.left && !s.left[0].conn.txPause
    && System.PORTS in s.pumps && s.pumps[System.PORTS].at.Checking?
  }

  lemma Reopens() returns (s: Shared)
    ensures Reachable(s) && Reused(s)
  {
    var s0 := FirstAccepted();
    var s1 := FullCycle(s0, System.PORTS);
    Reaches(s1, Connect(0));
    ConnectIs(s1, 0);
    var s2 := Next(s1, Connect(0));
    assert s2.left[0].conn == s0.mux.table[1];
    s := Accepts(s2, System.PORTS);
  }

  lemma Reads(s: Shared, id: nat) returns (s': Shared)
    requires Reachable(s) && id in s.pumps && s.pumps[id].at.Checking? && !Gate(s, id).txPause
    ensures Reachable(s') && s' == s.(pumps := s.pumps[id := Pump(s.pumps[id].port, Lane.Reading)])
  {
    Reaches(s, PumpChecks(id));
    s' := Next(s, PumpChecks(id));
  }

  lemma Sends(s: Shared, id: nat, payload: Option<Bytes>) returns (s': Shared)
    requires Reachable(s) && id in s.pumps && s.pumps[id].at.Reading?
    requires payload.None? || 0 < |payload.value| <= MAX_PAYLOAD
    ensures Reachable(s') && s'.mux == s.mux && s'.taken == s.taken && s'.left == s.left && s'.sent == s.sent
    ensures s'.queue == s.queue + [Msg(id, s.pumps[id].port, payload)]
    ensures s'.pumps == s.pumps[id := Pump(s.pumps[id].port, if payload.Some? then Lane.Checking else Lane.PumpDone)]
  {
    var e := if payload.Some? then PumpReads(id, payload.value) else PumpSeesEof(id);
    Reaches(s, e);
    var s1 := Next(s, e);
    Reaches(s1, PumpSends(id));
    s' := Next(s1, PumpSends(id));
  }

  /** The first connection's pump sends on port 1. */
  lemma Strays(payload: Option<Bytes>) returns (s: Shared)
    requires payload.None? || 0 < |payload.value| <= MAX_PAYLOAD
    ensures Reachable(s) && s.queue == [Msg(0, 1, payload)] && s.taken == map[] && s.mux.writer == Open
    ensures 1 in s.mux.table && s.mux.table[1].id == System.PORTS && s.mux.table[1].state.Connected?
    ensures s.mux.table[1].pending == [] && s.mux.table[1].rxWin == 0 && !s.mux.table[1].clientClosed
    ensures System.PORTS in s.pumps && s.pumps[System.PORTS].at.Checking?
  {
    var s1 := Reopens();
    assert !Holds(s1, 0, 1);
    var s2 := Reads(s1, 0);
    s := Sends(s2, 0, payload);
  }

  ghost predicate TakesForeignBytes(s: Shared) {
    Reachable(s) && exists n, x :: x in Of(s.taken, n) && x.sender != n && x.payload.Some?
  }

  /** The pump of a connection that has been overwritten lives on, and its client's next byte enters
      the new connection. */
  lemma ForeignBytesHappen()
    ensures exists s :: TakesForeignBytes(s)
  {
    var s := Strays(Some([0]));
    Reaches(s, Process);
    var s', piece := Next(s, Process), Piece(0, Some([0]));
    assert Of(s'.taken, System.PORTS) == [] + [piece] && piece in Of(s'.taken, System.PORTS);
    assert TakesForeignBytes(s');
  }

  /** Connection `n` is reset and removed by a close that did not come from its own pump, which has
      not seen the end of its client's stream. */
  ghost predicate ClosedByAnother(s: Shared, n: nat) {
    && Reachable(s) && Can(s, Process) && Holds(s, n, PortOf(n)) && s.mux.table[PortOf(n)].state.Connected?
    && s.queue[0].sender != n && n in s.pumps && s.pumps[n].at.Checking?
    && var s' := Next(s, Process);
       && n in s'.left && s'.left[n].why == Some(Drained) && PortOf(n) !in s'.mux.table
       && |Of(s'.sent, n)| == |Of(s.sent, n)| + 1 && Of(s'.sent, n)[|Of(s.sent, n)|].flags == RST
  }

  lemma CloseIdle(c: Conn)
    requires c.state.Connected? && c.pending == []
    ensures ClientClose(Open, c).fate == Gone(Drained)
    ensures |ClientClose(Open, c).segs| == 1 && ClientClose(Open, c).segs[0].flags == RST
  {
    assert FlushLoop(Open, c.(clientClosed := true)).segs == [];
  }

  /** When the overwritten connection's client closes its stream, the new connection on the port is
      reset and removed, though its own client has not closed. */
  lemma ForeignCloseHappens()
    ensures exists s :: ClosedByAnother(s, System.PORTS)
  {
    var s := Strays(None);
    CloseIdle(s.mux.table[1]);
    assert ClosedByAnother(s, System.PORTS);
  }

  // ---- pending bytes overwritten -----------------------------------------------------------

  /** The next Connect overwrites an established entry with unsent bytes. */
  ghost predicate OverwritesBytes(s: Shared) {
    && Reachable(s) && CanSend(s.mux.writer) && s.mux.nextPort in s.mux.table
    && s.mux.table[s.mux.nextPort].state.Connected? && s.mux.table[s.mux.nextPort].pending != []
  }

  lemma DataShut(c: Conn, bytes: Bytes)
    requires c.state.Connected? && c.rxWin == 0 && c.pending == [] && |bytes| <= MAX_PAYLOAD && !c.txPause
    ensures ClientData(Open, c, bytes) == Outcome(Open, [], c.(pending := bytes), Stay, [], [])
  {
    assert c.pending + bytes == bytes;
  }

  lemma OneByte(s: Shared) returns (s': Shared)
    requires Reachable(s) && s.queue == [Msg(0, 1, Some([0]))] && s.mux.writer == Open
    requires 1 in s.mux.table && s.mux.table[1].state.Connected? && s.mux.table[1].rxWin == 0
    requires s.mux.table[1].pending == [] && !s.mux.table[1].txPause
    ensures Reachable(s') && s'.mux == s.mux.(table := s'.mux.table, segs := s'.mux.segs, replies := s'.mux.replies)
    ensures 1 in s'.mux.table && s'.mux.table[1].state.Connected? && s'.mux.table[1].pending == [0]
    ensures s'.pumps == s.pumps && s'.queue == []
  {
    DataShut(s.mux.table[1], [0]);
    Reaches(s, Process);
    s' := Next(s, Process);
  }

  /** A client writes one byte to a device that keeps its window closed; 65534 further Connects on,
      the next one overwrites the entry with that byte unsent. */
  lemma OverwrittenBytesHappen()
    ensures exists s :: OverwritesBytes(s)
  {
    var s1 := FirstAccepted();
    var s2 := Reads(s1, 0);
    var s3 := Sends(s2, 0, Some([0]));
    var s4 := OneByte(s3);
    var s := FullCycle(s4, System.PORTS);
    assert OverwritesBytes(s);
  }

  // ---- a pump overwritten while it is paused -----------------------------------------------

  function Chunk(): Bytes {
    seq(MAX_PAYLOAD, _ => 0)
  }

  predicate Clogged(c: Conn, k: nat) {
    && c.state.Connected? && c.rxWin == 0 && |c.pending| == k * MAX_PAYLOAD && c.txPause == (22 <= k)
    && !c.resumePermit
  }

  /** The device's window is closed; the first connection's entry has taken `k` full chunks. */
  predicate Filled(s: Shared, k: nat) {
    && Turned(s, 1) && 1 in s.mux.table && s.mux.table[1].id == 0 && Clogged(s.mux.table[1], k)
    && s.pumps[0].at.Checking?
  }

  lemma ClogMore(c: Conn, k: nat)
    requires Clogged(c, k) && k < 22
    ensures var o := ClientData(Open, c, Chunk());
            o.fate.Stay? && o.w == Open && o.conn.id == c.id && Clogged(o.conn, k + 1)
  {
    var c1 := c.(pending := c.pending + Chunk());
    assert Flush(Open, c1) == Flushed(true, Open, [], c1);
  }

  lemma OneChunk(s: Shared, k: nat) returns (s': Shared)
    requires Reachable(s) && Filled(s, k) && k < 22
    ensures Reachable(s') && Filled(s', k + 1)
  {
    var s1 := Reads(s, 0);
    var s2 := Sends(s1, 0, Some(Chunk()));
    ClogMore(s2.mux.table[1], k);
    Reaches(s2, Process);
    s' := Next(s2, Process);
  }

  lemma {:induction false} Fills(k: nat) returns (s: Shared)
    requires k <= 22
    ensures Reachable(s) && Filled(s, k)
  {
    if k == 0 {
      s := FirstAccepted();
    } else {
      var s0 := Fills(k - 1);
      s := OneChunk(s0, k - 1);
    }
  }

  ghost predicate OverwriteStrands(s: Shared) {
    && OverwritesBytes(s)
    && var id, s' := s.mux.table[s.mux.nextPort].id, Next(s, Connect(0));
       id in s'.pumps && !s'.pumps[id].at.PumpDone? && !StalePumps.WillSend(s', id)
  }

  /** A client fills its connection until the pump is paused; a cycle later the entry is overwritten,
      and the pump never runs again. */
  lemma OverwriteStrandsHappens()
    ensures exists s :: OverwriteStrands(s)
  {
    var s0 := Fills(22);
    var s := FullCycle(s0, System.PORTS);
    var s' := Next(s, Connect(0));
    assert IsRun(s', []);
    ReuseTheorems.OverwriteLosesPending(s, 0, []);
    ConnectIs(s, 0);
    assert OverwriteStrands(s);
  }
}
