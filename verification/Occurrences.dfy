/** The mux failures that the theorems delimit do occur: runs that reach them. */
module Occurrences {
  import opened Prelude
  import opened Codec
  import opened ConnSpec
  import opened System
  import opened MuxTheorems
  import Departures
  import Lane
  import Stranding

  lemma {:induction false} RunSnoc(s: Sys, events: seq<Event>, e: Event)
    requires IsRun(s, events) && Can(Run(s, events), e)
    ensures IsRun(s, events + [e]) && Run(s, events + [e]) == Next(Run(s, events), e)
    decreases |events|
  {
    if events == [] {
      assert events + [e] == [e] && [e][1..] == [];
      assert IsRun(Next(s, e), []);
    } else {
      assert (events + [e])[1..] == events[1..] + [e];
      RunSnoc(Next(s, events[0]), events[1..], e);
    }
  }

  /** What follows a reachable state is reachable. */
  lemma Reaches(s: Sys, e: Event)
    requires Reachable(s) && Can(s, e)
    ensures Reachable(Next(s, e))
  {
    var w, events :| IsRun(Init(w), events) && Run(Init(w), events) == s;
    RunSnoc(Init(w), events, e);
  }

  lemma Starts()
    ensures Reachable(Init(Open))
  {
    assert IsRun(Init(Open), []) && Run(Init(Open), []) == Init(Open);
  }

  // ---- a Connect overwrites one that waits -------------------------------------------------

  /** After `n` Connects to which the device has not answered. */
  ghost predicate AllWaiting(s: Sys, n: nat) {
    && s.running && s.hand.None? && s.writer.Open? && s.connects == n && s.nextPort == 1 + n % PORTS
    && (forall p :: p in s.lanes <==> 1 <= p <= n)
    && (forall p :: p in s.lanes ==> s.lanes[p].inTable && s.lanes[p].conn.reply)
  }

  lemma OneMore(s: Sys, n: nat)
    requires n < PORTS && AllWaiting(s, n)
    ensures Can(s, Connect(0)) && Next(s, Connect(0)) == OpenNext(s, 0) && AllWaiting(OpenNext(s, 0), n + 1)
  {
    var o := Opened(s.writer, n, s.nextPort, 0);
    assert s.nextPort == n + 1 && o.fate.Stay? && o.conn.reply;
    var s' := OpenNext(s, 0);
    assert s'.lanes == s.lanes[n + 1 := Lane.Born(o)];
    assert s'.nextPort == 1 + (n + 1) % PORTS;
  }

  lemma NoConnects() returns (s: Sys)
    ensures Reachable(s) && AllWaiting(s, 0)
  {
    s := Init(Open);
    Starts();
  }

  lemma MoreConnects(s: Sys, n: nat) returns (s': Sys)
    requires Reachable(s) && AllWaiting(s, n) && n < PORTS
    ensures Reachable(s') && AllWaiting(s', n + 1)
  {
    OneMore(s, n);
    Reaches(s, Connect(0));
    s' := OpenNext(s, 0);
  }

  lemma {:induction false} ManyConnects(n: nat) returns (s: Sys)
    requires n <= PORTS
    ensures Reachable(s) && AllWaiting(s, n)
  {
    if n == 0 {
      s := NoConnects();
    } else {
      s := ManyConnects(n - 1);
      s := MoreConnects(s, n - 1);
    }
  }

  ghost predicate LosesReply(s: Sys, dport: U16) {
    Reachable(s) && s.running && CanSend(s.writer) && !Accounts(OpenNext(s, dport))
  }

  /** When the device leaves 65535 Connects unanswered the next one overwrites the first, whose
      reply is then neither given nor waiting. */
  lemma OverwriteHappens()
    ensures exists s :: LosesReply(s, 0)
  {
    var s := ManyConnects(PORTS);
    assert s.nextPort == 1 && 1 in s.lanes;
    OverwriteLosesReply(s, 0);
    assert LosesReply(s, 0);
  }

  // ---- a reset strands a pump and loses bytes ----------------------------------------------

  function Chunk(): Bytes {
    seq(MAX_PAYLOAD, _ => 0)
  }

  /** The first connection, to a device whose window is closed, with `k` chunks accepted. */
  predicate Clogged(l: Lane.Lane, k: nat) {
    && l.inTable && l.conn.state.Connected? && l.conn.rxWin == 0 && !l.closed
    && |l.conn.pending| == k * MAX_PAYLOAD
    && l.conn.txPause == (22 <= k) && !l.conn.resumePermit
  }

  predicate Stage(s: Sys, k: nat, pump: Lane.Pump, unread: Bytes, queue: seq<(U16, Option<Bytes>)>,
                  hand: Option<(U16, Option<Bytes>)>)
  {
    && s.running && s.writer == Open && s.dataQ == queue && s.hand == hand
    && 1 in s.lanes && Clogged(s.lanes[1], k) && s.lanes[1].pump == pump && s.lanes[1].unread == unread
  }

  lemma Asks() returns (s: Sys)
    ensures Reachable(s) && s.running && s.writer == Open && s.dataQ == [] && s.hand.None? && s.drainQ == []
    ensures 1 in s.lanes && s.lanes[1] == Lane.Born(Opened(Open, 0, 1, 0))
  {
    Starts();
    Reaches(Init(Open), Connect(0));
    s := Next(Init(Open), Connect(0));
  }

  lemma OpensLane(l: Lane.Lane, seg: Seg)
    requires l == Lane.Born(Opened(Open, 0, 1, 0)) && seg == Seg(0, 1, 0, 0, SYN + ACK, 0, [])
    ensures var l' := Lane.OnSegment(l, Open, seg);
            Clogged(l', 0) && l'.pump == Lane.Checking && l'.unread == []
    ensures Segment(Open, l.conn, seg, false).w == Open && l.inTable && !Lane.FwdAlive(l)
  {
  }

  lemma Opens() returns (s: Sys)
    ensures Reachable(s) && Stage(s, 0, Lane.Checking, [], [], None)
  {
    var s1 := Asks();
    var seg := Seg(0, 1, 0, 0, SYN + ACK, 0, []);
    OpensLane(s1.lanes[1], seg);
    Reaches(s1, Packet(seg));
    s := Next(s1, Packet(seg));
    assert s.lanes[1] == Lane.OnSegment(s1.lanes[1], Open, seg);
  }

  lemma Writes(s: Sys, k: nat) returns (s': Sys)
    requires Reachable(s) && Stage(s, k, Lane.Checking, [], [], None) && k < 22
    ensures Reachable(s') && Stage(s', k, Lane.Reading, Chunk(), [], None)
  {
    var e := At(1, Lane.ClientWrites(Chunk()));
    Reaches(s, e);
    var s1 := Next(s, e);
    assert s1.lanes[1].unread == Chunk();
    Reaches(s1, At(1, Lane.PumpChecks));
    s' := Next(s1, At(1, Lane.PumpChecks));
  }

  lemma Pumps(s: Sys, k: nat) returns (s': Sys)
    requires Reachable(s) && Stage(s, k, Lane.Reading, Chunk(), [], None)
    ensures Reachable(s') && Stage(s', k, Lane.Holding(Some(Chunk())), [], [], None)
  {
    var e := At(1, Lane.PumpReads(MAX_PAYLOAD));
    Reaches(s, e);
    s' := Next(s, e);
    assert Chunk()[..MAX_PAYLOAD] == Chunk() && Chunk()[MAX_PAYLOAD..] == [];
  }

  lemma Hands(s: Sys, k: nat) returns (s': Sys)
    requires Reachable(s) && Stage(s, k, Lane.Holding(Some(Chunk())), [], [], None)
    ensures Reachable(s') && Stage(s', k, Lane.Checking, [], [], Some((1, Some(Chunk()))))
  {
    Reaches(s, PumpSends(1));
    var s1 := Next(s, PumpSends(1));
    assert Stage(s1, k, Lane.Checking, [], [(1, Some(Chunk()))], None);
    Reaches(s1, Take);
    s' := Next(s1, Take);
  }

  lemma FlushShut(w: Writer, c: Conn)
    requires c.rxWin == 0 && !c.txPause
    ensures Flush(w, c) == Flushed(true, w, [], c)
  {
  }

  lemma AcceptsLane(l: Lane.Lane, k: nat)
    requires Clogged(l, k) && k < 22
    ensures var l' := Lane.OnMessage(l, Open, Some(Chunk()));
            Clogged(l', k + 1) && l'.pump == l.pump && l'.unread == l.unread
    ensures ClientMessage(Open, l.conn, Some(Chunk())).w == Open
  {
    FlushShut(Open, l.conn.(pending := l.conn.pending + Chunk()));
  }

  lemma Accepts(s: Sys, k: nat) returns (s': Sys)
    requires Reachable(s) && Stage(s, k, Lane.Checking, [], [], Some((1, Some(Chunk())))) && k < 22
    ensures Reachable(s') && Stage(s', k + 1, Lane.Checking, [], [], None)
  {
    AcceptsLane(s.lanes[1], k);
    Reaches(s, Process);
    s' := Next(s, Process);
    assert s'.lanes[1] == Lane.OnMessage(s.lanes[1], Open, Some(Chunk()));
  }

  lemma OneChunk(s: Sys, k: nat) returns (s': Sys)
    requires Reachable(s) && Stage(s, k, Lane.Checking, [], [], None) && k < 22
    ensures Reachable(s') && Stage(s', k + 1, Lane.Checking, [], [], None)
  {
    var s1 := Writes(s, k);
    var s2 := Pumps(s1, k);
    var s3 := Hands(s2, k);
    s' := Accepts(s3, k);
  }

  lemma {:induction false} Fills(k: nat) returns (s: Sys)
    requires k <= 22
    ensures Reachable(s) && Stage(s, k, Lane.Checking, [], [], None)
  {
    if k == 0 {
      s := Opens();
    } else {
      var s0 := Fills(k - 1);
      s := OneChunk(s0, k - 1);
    }
  }

  ghost predicate StrandsAndLoses(s: Sys, e: Event, p: U16) {
    && Reachable(s) && Can(s, e) && InTable(s, p) && CanSend(Next(s, e).writer)
    && p in Next(s, e).lanes && Stranding.CanBeStranded(Next(s, e), p)
    && var l' := Next(s, e).lanes[p];
       DataOf(OwnedBy(Next(s, e).wire, l'.conn.id)) != l'.accepted
  }

  lemma ResetStrands(s: Sys, e: Event, pump: Lane.Pump)
    requires Reachable(s) && Stage(s, 22, pump, [], [], None) && (pump.Checking? || pump.Waiting?)
    requires e == Packet(Seg(0, 1, 0, 0, RST, 0, []))
    ensures StrandsAndLoses(s, e, 1) && (Stranded(Next(s, e).lanes[1]) <==> pump.Waiting?)
  {
    var l' := Lane.OnSegment(s.lanes[1], s.writer, e.seg);
    assert !l'.inTable && l'.conn.pending == s.lanes[1].conn.pending;
    assert Next(s, e).lanes[1] == l' && Next(s, e).writer == Open;
    Stranding.TeardownStrandsPump(s, e, 1);
    Departures.DepartureLosesPending(s, e, 1);
  }

  /** A client that writes 22 full chunks to a device with a closed window, and then a reset by the
      device: the bytes are lost and the pump is stranded, at once if it has noticed the pause, and
      one step later if not. */
  lemma StrandingHappens()
    ensures exists s, e :: StrandsAndLoses(s, e, 1) && s.lanes[1].pump.Waiting? && Stranded(Next(s, e).lanes[1])
    ensures exists s, e :: StrandsAndLoses(s, e, 1) && s.lanes[1].pump.Checking? && !Stranded(Next(s, e).lanes[1])
  {
    var e := Packet(Seg(0, 1, 0, 0, RST, 0, []));
    var s0 := Fills(22);
    ResetStrands(s0, e, Lane.Checking);
    Reaches(s0, At(1, Lane.PumpChecks));
    var s := Next(s0, At(1, Lane.PumpChecks));
    ResetStrands(s, e, Lane.Waiting);
  }
}
