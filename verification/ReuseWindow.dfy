/** The receive window when ports are reused without a guard. A forwarder outlives its connection as
    long as it has chunks to write, and its drain reports carry the port only: they credit whatever
    entry has the port. */
module ReuseWindow {
  import opened Prelude
  import opened Codec
  import opened ConnSpec
  import opened PortReuse
  import opened ReuseProofs
  import opened StalePumps
  import Lane
  import LaneProofs
  import Mixing
  import System

  /** A drain report of the forwarder of connection `sender`, under its port. */
  datatype Report = Report(sender: nat, port: U16, n: U32)

  /** `core` is the mux of PortReuse. `alive` are the forwarders that still receive, `chunks` the
      lengths of what each has in its channel or in hand, `reports` the drain channel. `credits` are
      the reports each established connection has been credited with; `clipped` the connections whose
      count of buffered bytes has hit the top of its 32 bits. */
  datatype Win = Win(
    core: Shared,
    alive: set<nat>,
    chunks: map<nat, seq<nat>>,
    reports: seq<Report>,
    credits: map<nat, seq<Report>>,
    clipped: set<nat>)

  datatype Event = Core(e: PortReuse.Event) | Reports(id: nat) | Fails(id: nat) | Drains

  function Init(w: Writer): Win {
    Win(PortReuse.Init(w), {}, map[], [], map[], {})
  }

  predicate EntryAlive(s: Win, p: U16) {
    p in s.core.mux.table && s.core.mux.table[p].id in s.alive
  }

  predicate Can(s: Win, e: Event) {
    match e
    case Core(e1) => PortReuse.Can(s.core, e1) && !e1.Drain? && (e1.Packet? ==> e1.userAlive == EntryAlive(s, e1.seg.dst))
    case Reports(id) => id in s.alive && Of(s.chunks, id) != []
    case Fails(id) => id in s.alive
    case Drains => s.reports != []
  }

  function Len(payload: Bytes): U32 {
    |payload| % 0x1_0000_0000
  }

  /** What a packet does beside `core`: it may start a forwarder or hand one a chunk. */
  function Deliver(s: Win, c: Conn, o: Outcome, payload: Bytes): Win {
    var s1 := if !c.state.Connected? && o.conn.state.Connected? then s.(alive := s.alive + {c.id}) else s;
    if o.deliver == [] then s1
    else
      s1.(chunks := s.chunks[c.id := Of(s.chunks, c.id) + [Len(payload)]],
          clipped := s.clipped + if c.rxBuffered + Len(payload) < 0x1_0000_0000 then {} else {c.id})
  }

  function OnCore(s: Win, e: PortReuse.Event): Win
    requires PortReuse.Can(s.core, e)
  {
    var s1 := s.(core := PortReuse.Next(s.core, e));
    if e.Packet? && e.seg.dst in s.core.mux.table then
      var c := s.core.mux.table[e.seg.dst];
      Deliver(s1, c, Segment(s.core.mux.writer, c, e.seg, e.userAlive), e.seg.payload)
    else s1
  }

  function Next(s: Win, e: Event): Win
    requires Can(s, e)
  {
    match e
    case Core(e1) => OnCore(s, e1)
    case Reports(id) =>
      s.(chunks := s.chunks[id := s.chunks[id][1..]],
         reports := s.reports + [Report(id, PortOf(id), s.chunks[id][0] % 0x1_0000_0000)])
    case Fails(id) => s.(alive := s.alive - {id}, chunks := s.chunks[id := []])
    case Drains =>
      var r := s.reports[0];
      var s1 := s.(core := PortReuse.Next(s.core, Drain(r.port, r.n)), reports := s.reports[1..]);
      if r.port in s.core.mux.table && s.core.mux.table[r.port].state.Connected? then
        var id := s.core.mux.table[r.port].id;
        s1.(credits := s.credits[id := Of(s.credits, id) + [r]])
      else s1
  }

  predicate IsRun(s: Win, events: seq<Event>)
    decreases |events|
  {
    events == [] || (Can(s, events[0]) && IsRun(Next(s, events[0]), events[1..]))
  }

  function Run(s: Win, events: seq<Event>): Win
    requires IsRun(s, events)
    decreases |events|
  {
    if events == [] then s else Run(Next(s, events[0]), events[1..])
  }

  ghost predicate Reachable(s: Win) {
    exists w, events :: IsRun(Init(w), events) && Run(Init(w), events) == s
  }

  // ---- the core is the mux of PortReuse ----------------------------------------------------

  /** The event of PortReuse that `e` is, if it is one. */
  function CoreEvent(s: Win, e: Event): Option<PortReuse.Event>
    requires Can(s, e)
  {
    match e
    case Core(e1) => Some(e1)
    case Drains => Some(Drain(s.reports[0].port, s.reports[0].n))
    case _ => None
  }

  lemma CoreMoves(s: Win, e: Event)
    requires Can(s, e)
    ensures var e1 := CoreEvent(s, e);
            && (e1.Some? ==> PortReuse.Can(s.core, e1.value) && Next(s, e).core == PortReuse.Next(s.core, e1.value))
            && (e1.None? ==> Next(s, e).core == s.core)
  {
  }

  // ---- the invariant -----------------------------------------------------------------------

  /** The forwarder of `id`, its chunks and its reports belong to a connection that was established. */
  ghost predicate Owned(s: Win) {
    && (forall id :: id in s.alive || id in s.chunks ==> id in s.core.pumps)
    && (forall i :: 0 <= i < |s.reports| ==>
          s.reports[i].sender in s.core.pumps && s.reports[i].port == PortOf(s.reports[i].sender))
    && (forall id :: id in s.credits ==> id < s.core.mux.connects)
  }

  function OwnSum(reports: seq<Report>, id: nat): nat {
    if reports == [] then 0 else (if reports[0].sender == id then reports[0].n else 0) + OwnSum(reports[1..], id)
  }

  /** What was delivered for connection `id` and its entry has not been told to be drained. */
  function Due(s: Win, id: nat): nat {
    Sum(Of(s.chunks, id)) + OwnSum(s.reports, id)
  }

  /** What other connections' forwarders have credited connection `id` with. */
  function ForeignSum(credits: seq<Report>, id: nat): nat {
    if credits == [] then 0 else (if credits[0].sender != id then credits[0].n else 0) + ForeignSum(credits[1..], id)
  }

  predicate Small(ns: seq<nat>) {
    forall n :: n in ns ==> n < 0x1_0000_0000
  }

  /** Buffered bytes are never counted above what is due, and below it by no more than the foreign
      credit, unless the count has been clipped. */
  predicate Counts(s: Win, c: Conn) {
    && (!c.state.Connected? ==> c.rxBuffered == 0)
    && (c.state.Connected? && c.id in s.alive ==>
          && c.rxBuffered <= Due(s, c.id)
          && (c.id !in s.clipped ==> Due(s, c.id) <= c.rxBuffered + ForeignSum(Of(s.credits, c.id), c.id)))
  }

  predicate SmallChunks(s: Win) {
    forall id :: id in s.chunks ==> Small(s.chunks[id])
  }

  predicate Tallied(s: Win) {
    forall p :: p in s.core.mux.table ==> Counts(s, s.core.mux.table[p])
  }

  ghost predicate Inv(s: Win) {
    ReuseProofs.Inv(s.core) && Owned(s) && SmallChunks(s) && Tallied(s)
  }

  // ---- the handlers and the count ----------------------------------------------------------

  lemma MessageBuffered(w: Writer, c: Conn, msg: Option<Bytes>)
    requires c.state.Connected?
    ensures ClientMessage(w, c, msg).conn.rxBuffered == c.rxBuffered
  {
    if msg.Some? {
      LaneProofs.DataKeeps(w, c, msg.value);
    } else {
      LaneProofs.CloseKeeps(w, c);
    }
  }

  lemma AckBuffered(w: Writer, c: Conn, payload: Bytes, alive: bool)
    requires c.state.Connected?
    ensures var o := AckSegment(w, c, payload, alive);
            o.conn.rxBuffered == if o.deliver == [] then c.rxBuffered else SatAdd32(c.rxBuffered, Len(payload))
  {
    if payload == [] {
      LaneProofs.FlushAndCloseKeeps(w, c);
    } else if alive && c.rxTx {
      LaneProofs.AckKeeps(w, c, payload);
    }
  }

  lemma UnansweredBuffered(w: Writer, c: Conn, o: Outcome)
    requires o == Established(w, c) || o == Outcome(w, [], TearDown(c), o.fate, FailReply(c), [])
    ensures o.conn.rxBuffered == c.rxBuffered && o.deliver == []
  {
  }

  lemma SegmentBuffered(w: Writer, c: Conn, seg: Seg, alive: bool)
    requires !c.state.Dead?
    ensures var o := Segment(w, c, seg, alive);
            && o.conn.rxBuffered == (if o.deliver == [] then c.rxBuffered else SatAdd32(c.rxBuffered, Len(seg.payload)))
            && (o.deliver != [] ==> c.state.Connected? && alive)
  {
    var o, c0 := Segment(w, c, seg, alive), LaneProofs.Heard(c, seg);
    LaneProofs.SegmentCases(w, c, seg, alive);
    if c.state.Connected? && o == AckSegment(w, c0, seg.payload, alive) {
      AckBuffered(w, c0, seg.payload, alive);
    } else {
      UnansweredBuffered(w, c0, o);
    }
  }

  // ---- every event keeps it ----------------------------------------------------------------

  /** The books of connection `id` have not moved. */
  predicate SameBook(s: Win, s': Win, id: nat) {
    && (id in s'.alive <==> id in s.alive) && (id in s'.clipped <==> id in s.clipped)
    && Of(s'.chunks, id) == Of(s.chunks, id) && OwnSum(s'.reports, id) == OwnSum(s.reports, id)
    && Of(s'.credits, id) == Of(s.credits, id)
  }

  lemma SameCounts(s: Win, s': Win, c: Conn, c': Conn)
    requires Counts(s, c) && SameBook(s, s', c.id) && c'.id == c.id && c'.rxBuffered == c.rxBuffered
    requires c'.state.Connected? <==> c.state.Connected?
    ensures Counts(s', c')
  {
  }

  /** Of what a connection that is only starting is due, there is nothing yet. */
  lemma {:induction false} NoOwn(reports: seq<Report>, id: nat)
    requires forall i :: 0 <= i < |reports| ==> reports[i].sender != id
    ensures OwnSum(reports, id) == 0
  {
    if reports != [] {
      NoOwn(reports[1..], id);
    }
  }

  lemma NothingDue(s: Win, id: nat)
    requires Owned(s) && id !in s.core.pumps
    ensures Due(s, id) == 0 && id !in s.alive
  {
    NoOwn(s.reports, id);
    assert Of(s.chunks, id) == [];
  }

  /** One more chunk is due. */
  lemma DeliverDue(s: Win, c: Conn, o: Outcome, payload: Bytes, id: nat)
    requires SmallChunks(s)
    ensures var s' := Deliver(s, c, o, payload);
            && Due(s', id) == Due(s, id) + (if o.deliver != [] && id == c.id then Len(payload) else 0)
            && s'.reports == s.reports && s'.credits == s.credits && s'.core == s.core
            && SmallChunks(s')
  {
    SumSnoc(Of(s.chunks, c.id), Len(payload));
    assert Small(Of(s.chunks, c.id));
  }

  /** A segment's outcome, for the entry it is for. */
  lemma PacketCounts(s: Win, c: Conn, seg: Seg, alive: bool)
    requires Owned(s) && Counts(s, c) && !c.state.Dead? && (c.state.Connected? <==> c.id in s.core.pumps)
    requires SmallChunks(s)
    ensures var o := Segment(s.core.mux.writer, c, seg, alive);
            o.conn.id == c.id ==> Counts(Deliver(s, c, o, seg.payload), o.conn) || o.fate.Gone?
  {
    var o := Segment(s.core.mux.writer, c, seg, alive);
    SegmentSound(s.core.mux.writer, c, seg, alive);
    SegmentBuffered(s.core.mux.writer, c, seg, alive);
    DeliverDue(s, c, o, seg.payload, c.id);
    if !c.state.Connected? {
      NothingDue(s, c.id);
    }
  }

  /** `core'` is where the core moves to; the books do not depend on the core. */
  lemma OtherCore(s: Win, core': Shared, c: Conn)
    ensures Counts(s.(core := core'), c) <==> Counts(s, c)
  {
  }

  lemma DeliverOther(s: Win, c: Conn, o: Outcome, payload: Bytes, c1: Conn)
    requires Counts(s, c1) && c1.id != c.id
    ensures Counts(Deliver(s, c, o, payload), c1)
  {
    SameCounts(s, Deliver(s, c, o, payload), c1, c1);
  }

  /** The entry the packet is for. */
  lemma PacketHere(s: Win, e: PortReuse.Event)
    requires e.Packet? && e.seg.dst in s.core.mux.table && Can(s, Core(e)) && EntryAt(s.core, e.seg.dst)
    requires Owned(s) && SmallChunks(s) && Counts(s, s.core.mux.table[e.seg.dst])
    requires e.seg.dst in OnCore(s, e).core.mux.table
    ensures Counts(OnCore(s, e), OnCore(s, e).core.mux.table[e.seg.dst])
  {
    var c := s.core.mux.table[e.seg.dst];
    var o := Segment(s.core.mux.writer, c, e.seg, e.userAlive);
    SegmentSound(s.core.mux.writer, c, e.seg, e.userAlive);
    PacketCounts(s, c, e.seg, e.userAlive);
    OtherCore(Deliver(s, c, o, e.seg.payload), OnCore(s, e).core, o.conn);
  }

  lemma PacketElsewhere(s: Win, e: PortReuse.Event, q: U16)
    requires e.Packet? && e.seg.dst in s.core.mux.table && Can(s, Core(e)) && q != e.seg.dst
    requires q in s.core.mux.table && s.core.mux.table[q].id != s.core.mux.table[e.seg.dst].id
    requires Counts(s, s.core.mux.table[q])
    ensures q in OnCore(s, e).core.mux.table && Counts(OnCore(s, e), OnCore(s, e).core.mux.table[q])
  {
    var c := s.core.mux.table[e.seg.dst];
    var o := Segment(s.core.mux.writer, c, e.seg, e.userAlive);
    DeliverOther(s, c, o, e.seg.payload, s.core.mux.table[q]);
    OtherCore(Deliver(s, c, o, e.seg.payload), OnCore(s, e).core, s.core.mux.table[q]);
  }

  lemma PacketAt(s: Win, e: PortReuse.Event, q: U16)
    requires Known(s.core) && Owned(s) && SmallChunks(s) && Tallied(s)
    requires e.Packet? && e.seg.dst in s.core.mux.table && Can(s, Core(e)) && q in OnCore(s, e).core.mux.table
    ensures Counts(OnCore(s, e), OnCore(s, e).core.mux.table[q])
  {
    assert EntryAt(s.core, e.seg.dst);
    if q == e.seg.dst {
      PacketHere(s, e);
    } else {
      OtherIds(s.core, e.seg.dst);
      PacketElsewhere(s, e, q);
    }
  }

  lemma PacketKeeps(s: Win, e: PortReuse.Event)
    requires Known(s.core) && Owned(s) && SmallChunks(s) && Tallied(s)
    requires e.Packet? && e.seg.dst in s.core.mux.table && Can(s, Core(e))
    ensures Tallied(OnCore(s, e)) && SmallChunks(OnCore(s, e))
  {
    var c := s.core.mux.table[e.seg.dst];
    DeliverDue(s, c, Segment(s.core.mux.writer, c, e.seg, e.userAlive), e.seg.payload, c.id);
    forall q | q in OnCore(s, e).core.mux.table ensures Counts(OnCore(s, e), OnCore(s, e).core.mux.table[q]) {
      PacketAt(s, e, q);
    }
  }

  lemma ProcessCounts(s: Win)
    requires AllLive(s.core) && Tallied(s) && s.core.queue != []
    ensures var s' := OnCore(s, Process);
            Tallied(s')
  {
    var s', msg := OnCore(s, Process), s.core.queue[0];
    ProcessIs(s.core);
    if Takes(s.core, msg) {
      MessageBuffered(s.core.mux.writer, s.core.mux.table[msg.port], msg.payload);
    }
    forall q | q in s'.core.mux.table ensures Counts(s', s'.core.mux.table[q]) {
      assert Counts(s, s.core.mux.table[q]);
      SameCounts(s, s', s.core.mux.table[q], s'.core.mux.table[q]);
    }
  }

  lemma ConnectCounts(s: Win, dport: U16)
    requires Tallied(s)
    ensures var s' := OnCore(s, Connect(dport));
            Tallied(s')
  {
    var s' := OnCore(s, Connect(dport));
    ConnectIs(s.core, dport);
    forall q | q in s'.core.mux.table ensures Counts(s', s'.core.mux.table[q]) {
      assert q in s.core.mux.table ==> Counts(s, s.core.mux.table[q]);
    }
  }

  lemma PumpCounts(s: Win, e: PortReuse.Event, id: nat)
    requires Tallied(s) && IsPumpEvent(e, id) && PortReuse.Can(s.core, e)
    ensures var s' := OnCore(s, e);
            Tallied(s')
  {
    var s' := OnCore(s, e);
    PumpIs(s.core, e, id);
    forall q | q in s'.core.mux.table ensures Counts(s', s'.core.mux.table[q]) {
      assert OnlyPermit(s.core.mux.table[q], s'.core.mux.table[q]);
      SameCounts(s, s', s.core.mux.table[q], s'.core.mux.table[q]);
    }
  }

  lemma CoreCounts(s: Win, e: PortReuse.Event)
    requires Known(s.core) && Owned(s) && SmallChunks(s) && Tallied(s) && Can(s, Core(e))
    ensures var s' := OnCore(s, e);
            && Tallied(s')
            && SmallChunks(s')
  {
    KnownLive(s.core);
    match e
    case Connect(dport) => ConnectCounts(s, dport);
    case Packet(seg, _) => if seg.dst in s.core.mux.table { PacketKeeps(s, e); }
    case Process => ProcessCounts(s);
    case PumpChecks(id) => PumpCounts(s, e, id);
    case PumpWakes(id) => PumpCounts(s, e, id);
    case PumpReads(id, _) => PumpCounts(s, e, id);
    case PumpSeesEof(id) => PumpCounts(s, e, id);
    case PumpSends(id) => PumpCounts(s, e, id);
  }

  lemma {:induction false} OwnSumSnoc(reports: seq<Report>, r: Report, id: nat)
    ensures OwnSum(reports + [r], id) == OwnSum(reports, id) + if r.sender == id then r.n else 0
  {
    if reports == [] {
      assert reports + [r] == [r];
    } else {
      assert (reports + [r])[1..] == reports[1..] + [r];
      OwnSumSnoc(reports[1..], r, id);
    }
  }

  lemma {:induction false} ForeignSumSnoc(credits: seq<Report>, r: Report, id: nat)
    ensures ForeignSum(credits + [r], id) == ForeignSum(credits, id) + if r.sender != id then r.n else 0
  {
    if credits == [] {
      assert credits + [r] == [r];
    } else {
      assert (credits + [r])[1..] == credits[1..] + [r];
      ForeignSumSnoc(credits[1..], r, id);
    }
  }

  lemma ReportsDue(s: Win, id: nat, x: nat)
    requires SmallChunks(s) && Can(s, Reports(id))
    ensures Due(Next(s, Reports(id)), x) == Due(s, x)
  {
    var n := s.chunks[id][0];
    assert n in s.chunks[id] && Small(s.chunks[id]);
    OwnSumSnoc(s.reports, Report(id, PortOf(id), n % 0x1_0000_0000), x);
  }

  lemma ReportsCounts(s: Win, id: nat)
    requires SmallChunks(s) && Tallied(s) && Can(s, Reports(id))
    ensures var s' := Next(s, Reports(id));
            && Tallied(s')
            && SmallChunks(s')
  {
    var s' := Next(s, Reports(id));
    assert Small(s.chunks[id]) && forall n :: n in s.chunks[id][1..] ==> n in s.chunks[id];
    forall p | p in s'.core.mux.table ensures Counts(s', s'.core.mux.table[p]) {
      assert Counts(s, s.core.mux.table[p]);
      ReportsDue(s, id, s.core.mux.table[p].id);
    }
  }

  lemma FailsCounts(s: Win, id: nat)
    requires Tallied(s) && Can(s, Fails(id))
    ensures var s' := Next(s, Fails(id));
            Tallied(s')
  {
    var s' := Next(s, Fails(id));
    forall p | p in s'.core.mux.table ensures Counts(s', s'.core.mux.table[p]) {
      assert Counts(s, s.core.mux.table[p]);
    }
  }

  /** One report off the channel: its sender's due goes down by it. */
  lemma DrainsDue(s: Win, x: nat)
    requires s.reports != []
    ensures Due(s, x) == Due(Next(s, Drains), x) + if s.reports[0].sender == x then s.reports[0].n else 0
  {
  }

  lemma DrainsEntry(s: Win, c: Conn, c': Conn)
    requires s.reports != [] && Counts(s, c) && c'.id == c.id && (c'.state.Connected? <==> c.state.Connected?)
    requires c'.rxBuffered == SatSub(c.rxBuffered, s.reports[0].n)
    requires var s' := Next(s, Drains);
             Of(s'.credits, c.id) == Of(s.credits, c.id) + if c.state.Connected? then [s.reports[0]] else []
    ensures Counts(Next(s, Drains), c')
  {
    DrainsDue(s, c.id);
    ForeignSumSnoc(Of(s.credits, c.id), s.reports[0], c.id);
  }

  lemma DrainsOther(s: Win, c: Conn)
    requires Owned(s) && s.reports != [] && Counts(s, c) && s.reports[0].sender != c.id
    requires Of(Next(s, Drains).credits, c.id) == Of(s.credits, c.id)
    ensures Counts(Next(s, Drains), c)
  {
    DrainsDue(s, c.id);
  }

  lemma DrainsHere(s: Win)
    requires s.reports != [] && s.reports[0].port in s.core.mux.table && Counts(s, s.core.mux.table[s.reports[0].port])
    ensures var s', p := Next(s, Drains), s.reports[0].port;
            p in s'.core.mux.table && Counts(s', s'.core.mux.table[p])
  {
    var c := s.core.mux.table[s.reports[0].port];
    assert Of(s.credits, c.id) + [] == Of(s.credits, c.id);
    DrainsEntry(s, c, Next(s, Drains).core.mux.table[s.reports[0].port]);
  }

  lemma DrainsElsewhere(s: Win, q: U16)
    requires Owned(s) && s.reports != [] && q != s.reports[0].port && q in s.core.mux.table
    requires Counts(s, s.core.mux.table[q]) && s.core.mux.table[q].id != s.reports[0].sender
    requires s.reports[0].port in s.core.mux.table ==> s.core.mux.table[s.reports[0].port].id != s.core.mux.table[q].id
    ensures var s' := Next(s, Drains);
            q in s'.core.mux.table && Counts(s', s'.core.mux.table[q])
  {
    DrainsOther(s, s.core.mux.table[q]);
  }

  lemma DrainsAt(s: Win, q: U16)
    requires Known(s.core) && Owned(s) && Tallied(s) && s.reports != [] && q in s.core.mux.table
    ensures var s' := Next(s, Drains);
            q in s'.core.mux.table && Counts(s', s'.core.mux.table[q])
  {
    assert EntryAt(s.core, q) && PumpAt(s.core, s.reports[0].sender);
    if q == s.reports[0].port {
      DrainsHere(s);
    } else {
      OtherIds(s.core, q);
      DrainsElsewhere(s, q);
    }
  }

  lemma DrainsCounts(s: Win)
    requires Known(s.core) && Owned(s) && Tallied(s) && s.reports != []
    ensures Tallied(Next(s, Drains))
  {
    forall q | q in Next(s, Drains).core.mux.table ensures Counts(Next(s, Drains), Next(s, Drains).core.mux.table[q]) {
      DrainsAt(s, q);
    }
  }

  lemma ReportsOwned(s: Win, s': Win)
    requires Owned(s) && s.core.pumps.Keys <= s'.core.pumps.Keys && s.core.mux.connects <= s'.core.mux.connects
    requires forall id :: id in s'.alive || id in s'.chunks ==> id in s'.core.pumps
    requires s'.reports == s.reports || (s.reports != [] && s'.reports == s.reports[1..])
             || exists id, n :: id in s.alive && s'.reports == s.reports + [Report(id, PortOf(id), n)]
    requires forall id :: id in s'.credits ==> id in s.credits || id < s'.core.mux.connects
    ensures Owned(s')
  {
  }

  lemma NextOwned(s: Win, e: Event)
    requires Known(s.core) && Owned(s) && Can(s, e)
    ensures Owned(Next(s, e))
  {
    match e
    case Core(e1) => CoreOwned(s, e1);
    case Reports(id) => ReportsOwned(s, Next(s, e));
    case Fails(id) => ReportsOwned(s, Next(s, e));
    case Drains =>
      PumpsGrow(s.core, Drain(s.reports[0].port, s.reports[0].n));
      ReportsOwned(s, Next(s, e));
  }

  lemma CoreOwned(s: Win, e: PortReuse.Event)
    requires Known(s.core) && Owned(s) && Can(s, Core(e))
    ensures Owned(OnCore(s, e))
  {
    PumpsGrow(s.core, e);
    if e.Packet? {
      PacketOwned(s, e);
    }
    ReportsOwned(s, OnCore(s, e));
  }

  lemma PumpsGrow(s: Shared, e: PortReuse.Event)
    requires Known(s) && PortReuse.Can(s, e)
    ensures s.pumps.Keys <= PortReuse.Next(s, e).pumps.Keys && s.mux.connects <= PortReuse.Next(s, e).mux.connects
    ensures forall p :: p in s.mux.table ==> s.mux.table[p].id < s.mux.connects
  {
    forall p | p in s.mux.table ensures s.mux.table[p].id < s.mux.connects {
      assert EntryAt(s, p);
    }
    var k := Classify(s, e);
    match k {
      case Opens => ConnectIs(s, e.dport);
      case Entry(p, o, pieces) =>
      case Pumps(x) => PumpIs(s, e, x);
      case Nothing =>
    }
  }

  lemma PacketOwned(s: Win, e: PortReuse.Event)
    requires Known(s.core) && Owned(s) && Can(s, Core(e)) && e.Packet?
    ensures forall id :: id in OnCore(s, e).alive || id in OnCore(s, e).chunks ==> id in OnCore(s, e).core.pumps
  {
    PumpsGrow(s.core, e);
    if e.seg.dst in s.core.mux.table {
      var c := s.core.mux.table[e.seg.dst];
      assert EntryAt(s.core, e.seg.dst);
      SegmentBuffered(s.core.mux.writer, c, e.seg, e.userAlive);
    }
  }

  lemma NextKeeps(s: Win, e: Event)
    requires Inv(s) && Can(s, e)
    ensures Inv(Next(s, e))
  {
    CoreMoves(s, e);
    if CoreEvent(s, e).Some? {
      ReuseProofs.NextKeeps(s.core, CoreEvent(s, e).value);
    }
    NextOwned(s, e);
    match e {
      case Core(e1) => CoreCounts(s, e1);
      case Reports(id) => ReportsCounts(s, id);
      case Fails(id) => FailsCounts(s, id);
      case Drains => DrainsCounts(s);
    }
  }

  lemma {:induction false} RunKeeps(s: Win, events: seq<Event>)
    requires Inv(s) && IsRun(s, events)
    ensures Inv(Run(s, events))
    decreases |events|
  {
    if events != [] {
      NextKeeps(s, events[0]);
      RunKeeps(Next(s, events[0]), events[1..]);
    }
  }

  lemma ReachableInv(s: Win)
    requires Reachable(s)
    ensures Inv(s)
  {
    var w, events :| IsRun(Init(w), events) && Run(Init(w), events) == s;
    RunKeeps(Init(w), events);
  }

  /** Receive accounting with no guard on ports and for any device: while its forwarder lives, an
      established connection's buffered bytes never exceed what is in its channel, in its forwarder's
      hand or in a report of its own, so free space is never shown too small. And unless the count
      has hit the top of its 32 bits they fall short of that by no more than other connections'
      forwarders have credited it with; so with no such credit the count is exact. */
  lemma WindowOffByForeignCredit(s: Win, p: U16)
    requires Reachable(s) && p in s.core.mux.table
    requires var c := s.core.mux.table[p]; c.state.Connected? && c.id in s.alive
    ensures var c := s.core.mux.table[p];
            var due := Sum(Of(s.chunks, c.id)) + OwnSum(s.reports, c.id);
            && c.rxBuffered <= due
            && (c.id !in s.clipped ==> due - ForeignSum(Of(s.credits, c.id), c.id) <= c.rxBuffered)
            && (c.id !in s.clipped && (forall r :: r in Of(s.credits, c.id) ==> r.sender == c.id) ==>
                  c.rxBuffered == due)
  {
    ReachableInv(s);
    assert Counts(s, s.core.mux.table[p]);
    NoForeign(Of(s.credits, s.core.mux.table[p].id), s.core.mux.table[p].id);
  }

  lemma {:induction false} NoForeign(credits: seq<Report>, id: nat)
    ensures (forall r :: r in credits ==> r.sender == id) ==> ForeignSum(credits, id) == 0
  {
    if credits != [] {
      NoForeign(credits[1..], id);
      assert credits[0] in credits;
    }
  }
}
