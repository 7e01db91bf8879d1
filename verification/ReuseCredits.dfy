/** Which Connects expose the connection they open to another forwarder's drain reports, which make its
    receive window look freer than it is. */
module ReuseCredits {
  import opened Prelude
  import opened Codec
  import opened ConnSpec
  import opened PortReuse
  import opened ReuseProofs
  import opened StalePumps
  import opened ReuseWindow
  import Lane
  import Mixing
  import ReuseRuns
  import System

  /** Connection `n`, established, has been credited by another connection's forwarder. */
  ghost predicate Credited(s: Win, n: nat) {
    exists r :: r in Of(s.credits, n) && r.sender != n
  }

  ghost predicate CanBeCredited(s: Win, n: nat) {
    exists events :: ReuseWindow.IsRun(s, events) && Credited(ReuseWindow.Run(s, events), n)
  }

  predicate InReports(s: Win, id: nat) {
    exists i :: 0 <= i < |s.reports| && s.reports[i].sender == id
  }

  /** Forwarder `id` still has chunks to write, or a report in the channel. */
  predicate Owes(s: Win, id: nat) {
    (id in s.alive && Of(s.chunks, id) != []) || InReports(s, id)
  }

  /** A forwarder started on port `p` does. */
  predicate LeftOver(s: Win, p: U16) {
    exists id :: id in s.core.pumps && s.core.pumps[id].port == p && Owes(s, id)
  }

  // ---- with nothing left over, never -------------------------------------------------------

  ghost predicate Dry(s: Win, n: nat) {
    && n < s.core.mux.connects
    && (PortOf(n) in s.core.mux.table ==> n <= s.core.mux.table[PortOf(n)].id)
    && (forall id :: id in s.core.pumps && id < n && PortOf(id) == PortOf(n) ==> id in s.core.left && !Owes(s, id))
    && !Credited(s, n)
  }

  /** A connection that has gone is handed nothing more; its forwarder only works off what it has. */
  lemma PacketOwes(s: Win, e: PortReuse.Event, id: nat)
    requires Known(s.core) && ReuseWindow.Can(s, Core(e)) && id in s.core.left
    ensures Owes(OnCore(s, e), id) <==> Owes(s, id)
  {
    if e.Packet? && e.seg.dst in s.core.mux.table {
      OtherIds(s.core, e.seg.dst);
    }
  }

  lemma NotReported(s: Win, s': Win, id: nat)
    requires s'.reports == s.reports || (s.reports != [] && s'.reports == s.reports[1..])
    ensures InReports(s', id) ==> InReports(s, id)
  {
    if i :| 0 <= i < |s'.reports| && s'.reports[i].sender == id {
      assert s.reports[if s'.reports == s.reports then i else i + 1].sender == id;
    }
  }

  lemma ReportsOwe(s: Win, x: nat, id: nat)
    requires ReuseWindow.Can(s, Reports(x))
    ensures Owes(ReuseWindow.Next(s, Reports(x)), id) ==> Owes(s, id)
  {
    var s' := ReuseWindow.Next(s, Reports(x));
    if i :| 0 <= i < |s'.reports| && s'.reports[i].sender == id {
      assert i < |s.reports| ==> s.reports[i].sender == id;
    }
  }

  lemma OwesNoMore(s: Win, e: ReuseWindow.Event, id: nat)
    requires Known(s.core) && ReuseWindow.Can(s, e) && id in s.core.left
    ensures Owes(ReuseWindow.Next(s, e), id) ==> Owes(s, id)
  {
    match e
    case Core(e1) => PacketOwes(s, e1, id);
    case Reports(x) => ReportsOwe(s, x, id);
    case Fails(x) => NotReported(s, ReuseWindow.Next(s, e), id);
    case Drains => NotReported(s, ReuseWindow.Next(s, e), id);
  }

  lemma DryCredits(s: Win, e: ReuseWindow.Event, n: nat)
    requires Known(s.core) && Owned(s) && ReuseWindow.Can(s, e) && Dry(s, n)
    ensures !Credited(ReuseWindow.Next(s, e), n)
  {
    if e.Drains? && Holds(s.core, n, s.reports[0].port) {
      var x := s.reports[0].sender;
      assert PumpAt(s.core, x) && EntryAt(s.core, s.reports[0].port);
      assert x in s.core.left ==> LeftAt(s.core, x);
      assert InReports(s, x);
    }
  }

  lemma DryLater(s: Win, e: ReuseWindow.Event, n: nat)
    requires Known(s.core) && ReuseWindow.Can(s, e) && n < s.core.mux.connects
    requires PortOf(n) in s.core.mux.table ==> n <= s.core.mux.table[PortOf(n)].id
    ensures var c := ReuseWindow.Next(s, e).core;
            n < c.mux.connects && (PortOf(n) in c.mux.table ==> n <= c.mux.table[PortOf(n)].id)
  {
    CoreMoves(s, e);
    if CoreEvent(s, e).Some? {
      Mixing.LaterEntry(s.core, CoreEvent(s, e).value, n);
    }
  }

  lemma DryGone(s: Win, e: ReuseWindow.Event, n: nat, id: nat)
    requires Known(s.core) && ReuseWindow.Can(s, e) && Dry(s, n)
    requires id in ReuseWindow.Next(s, e).core.pumps && id < n && PortOf(id) == PortOf(n)
    ensures id in s.core.left && !Owes(s, id) && id in ReuseWindow.Next(s, e).core.left
  {
    CoreMoves(s, e);
    if CoreEvent(s, e).Some? {
      if id !in s.core.pumps {
        Mixing.PumpsStart(s.core, CoreEvent(s, e).value, id);
      }
      GoneStays(s.core, CoreEvent(s, e).value, id);
    }
  }

  lemma NextDry(s: Win, e: ReuseWindow.Event, n: nat)
    requires Known(s.core) && Owned(s) && ReuseWindow.Can(s, e) && Dry(s, n)
    ensures Dry(ReuseWindow.Next(s, e), n)
  {
    var s' := ReuseWindow.Next(s, e);
    DryLater(s, e, n);
    DryCredits(s, e, n);
    forall id | id in s'.core.pumps && id < n && PortOf(id) == PortOf(n) ensures id in s'.core.left && !Owes(s', id) {
      DryGone(s, e, n, id);
      OwesNoMore(s, e, id);
    }
  }

  /** A connection that cannot be established any more is never credited. */
  ghost predicate Shelved(s: Win, n: nat) {
    n < s.core.mux.connects && n !in s.core.pumps && !CanSend(s.core.mux.writer) && !Credited(s, n)
  }

  lemma CoreShelved(s: Shared, e: PortReuse.Event, n: nat)
    requires Known(s) && PortReuse.Can(s, e)
    requires n < s.mux.connects && n !in s.pumps && !CanSend(s.mux.writer)
    ensures var s' := PortReuse.Next(s, e);
            n < s'.mux.connects && n !in s'.pumps && !CanSend(s'.mux.writer)
  {
    var k := Classify(s, e);
    match k {
      case Opens => ConnectIs(s, e.dport);
      case Entry(p, o, pieces) =>
      case Pumps(x) => PumpIs(s, e, x);
      case Nothing =>
    }
  }

  lemma NextShelved(s: Win, e: ReuseWindow.Event, n: nat)
    requires Known(s.core) && ReuseWindow.Can(s, e) && Shelved(s, n)
    ensures Shelved(ReuseWindow.Next(s, e), n)
  {
    CoreMoves(s, e);
    if CoreEvent(s, e).Some? {
      CoreShelved(s.core, CoreEvent(s, e).value, n);
    }
    if e.Drains? && Holds(s.core, n, s.reports[0].port) {
      assert EntryAt(s.core, s.reports[0].port);
    }
  }

  lemma {:induction false} RunUncredited(s: Win, events: seq<ReuseWindow.Event>, n: nat)
    requires ReuseWindow.Inv(s) && ReuseWindow.IsRun(s, events) && (Dry(s, n) || Shelved(s, n))
    ensures !Credited(ReuseWindow.Run(s, events), n)
    decreases |events|
  {
    if events != [] {
      if Dry(s, n) {
        NextDry(s, events[0], n);
      } else {
        NextShelved(s, events[0], n);
      }
      ReuseWindow.NextKeeps(s, events[0]);
      RunUncredited(ReuseWindow.Next(s, events[0]), events[1..], n);
    }
  }

  function Opening(dport: U16): ReuseWindow.Event {
    Core(Connect(dport))
  }

  lemma OpeningIs(s: Win, dport: U16)
    ensures ReuseWindow.Next(s, Opening(dport)) == s.(core := OnConnect(s.core, dport))
  {
  }

  lemma OpeningPumps(s: Win, dport: U16, id: nat)
    requires Known(s.core) && CanSend(s.core.mux.writer) && !LeftOver(s, s.core.mux.nextPort)
    requires id in s.core.pumps && PortOf(id) == s.core.mux.nextPort
    ensures var s' := ReuseWindow.Next(s, Opening(dport));
            id in s'.core.left && !Owes(s', id)
  {
    ConnectIs(s.core, dport);
    assert PumpAt(s.core, id);
    assert Owes(ReuseWindow.Next(s, Opening(dport)), id) ==> Owes(s, id) by {
      OpeningIs(s, dport);
      NotReported(s, ReuseWindow.Next(s, Opening(dport)), id);
    }
  }

  lemma OpeningUncredited(s: Win, dport: U16)
    requires Known(s.core) && Owned(s)
    ensures var s', n := ReuseWindow.Next(s, Opening(dport)), s.core.mux.connects;
            n !in s'.core.pumps && !Credited(s', n)
  {
    OpeningIs(s, dport);
    Mixing.UnbornTakesNothing(s.core, dport);
    assert Of(s.credits, s.core.mux.connects) == [];
  }

  lemma OpeningSafe(s: Win, dport: U16)
    requires Known(s.core) && Owned(s)
    requires !(LeftOver(s, s.core.mux.nextPort) && Mixing.SendsTwo(s.core.mux.writer))
    ensures var s', n := ReuseWindow.Next(s, Opening(dport)), s.core.mux.connects;
            Dry(s', n) || Shelved(s', n)
  {
    var s', n := ReuseWindow.Next(s, Opening(dport)), s.core.mux.connects;
    OpeningIs(s, dport);
    ConnectIs(s.core, dport);
    OpeningUncredited(s, dport);
    if Mixing.SendsTwo(s.core.mux.writer) {
      forall id | id in s'.core.pumps && id < n && PortOf(id) == PortOf(n) ensures id in s'.core.left && !Owes(s', id) {
        OpeningPumps(s, dport, id);
      }
    }
  }

  // ---- with something left over, in some run -----------------------------------------------

  lemma Sooner(s: Win, e: ReuseWindow.Event, n: nat)
    requires ReuseWindow.Can(s, e) && CanBeCredited(ReuseWindow.Next(s, e), n)
    ensures CanBeCredited(s, n)
  {
    var s1 := ReuseWindow.Next(s, e);
    var rest :| ReuseWindow.IsRun(s1, rest) && Credited(ReuseWindow.Run(s1, rest), n);
    var events := [e] + rest;
    assert events[0] == e && events[1..] == rest;
    assert ReuseWindow.IsRun(s, events) && ReuseWindow.Run(s, events) == ReuseWindow.Run(s1, rest);
  }

  lemma CreditedNow(s: Win, n: nat)
    requires Credited(s, n)
    ensures CanBeCredited(s, n)
  {
    assert ReuseWindow.IsRun(s, []) && ReuseWindow.Run(s, []) == s;
  }

  /** Connection `n` is established, and its forwarder has reported nothing. */
  predicate Ready(s: Win, n: nat) {
    Holds(s.core, n, PortOf(n)) && s.core.mux.table[PortOf(n)].state.Connected? && !InReports(s, n)
  }

  lemma HeadCredits(s: Win, n: nat)
    requires Ready(s, n) && s.reports != [] && s.reports[0].port == PortOf(n)
    ensures CanBeCredited(s, n)
  {
    var s' := ReuseWindow.Next(s, Drains);
    assert Of(s'.credits, n) == Of(s.credits, n) + [s.reports[0]] && s.reports[0] in Of(s'.credits, n);
    assert Credited(s', n);
    CreditedNow(s', n);
    Sooner(s, Drains, n);
  }

  lemma HeadPasses(s: Win, n: nat, id: nat)
    requires Ready(s, n) && s.reports != [] && s.reports[0].port != PortOf(n) && InReports(s, id) && s.reports[0].sender != id
    ensures Ready(ReuseWindow.Next(s, Drains), n) && InReports(ReuseWindow.Next(s, Drains), id)
  {
    NotReported(s, ReuseWindow.Next(s, Drains), n);
    var i :| 0 <= i < |s.reports| && s.reports[i].sender == id;
    assert ReuseWindow.Next(s, Drains).reports[i - 1].sender == id;
  }

  lemma {:induction false} ReportReaches(s: Win, n: nat, id: nat)
    requires ReuseWindow.Inv(s) && Ready(s, n) && InReports(s, id) && PortOf(id) == PortOf(n)
    ensures CanBeCredited(s, n)
    decreases |s.reports|
  {
    if s.reports[0].port == PortOf(n) {
      HeadCredits(s, n);
    } else {
      HeadPasses(s, n, id);
      ReuseWindow.NextKeeps(s, Drains);
      ReportReaches(ReuseWindow.Next(s, Drains), n, id);
      Sooner(s, Drains, n);
    }
  }

  lemma OwedReaches(s: Win, n: nat, id: nat)
    requires ReuseWindow.Inv(s) && Ready(s, n) && Owes(s, id) && PortOf(id) == PortOf(n) && id != n
    ensures CanBeCredited(s, n)
  {
    if InReports(s, id) {
      ReportReaches(s, n, id);
    } else {
      var s' := ReuseWindow.Next(s, Reports(id));
      assert s'.reports[|s.reports|].sender == id;
      forall i | 0 <= i < |s'.reports| ensures s'.reports[i].sender != n {
        assert i < |s.reports| ==> s'.reports[i] == s.reports[i];
      }
      ReuseWindow.NextKeeps(s, Reports(id));
      ReportReaches(s', n, id);
      Sooner(s, Reports(id), n);
    }
  }

  /** The device accepts; nothing is delivered yet. */
  lemma AcceptIs(s: Win, n: nat)
    requires Holds(s.core, n, PortOf(n)) && s.core.mux.table[PortOf(n)].state.Connecting?
    requires CanSend(s.core.mux.writer) && n !in s.alive && !InReports(s, n)
    ensures var e := Core(Mixing.Accept(PortOf(n)));
            && ReuseWindow.Can(s, e) && Ready(ReuseWindow.Next(s, e), n)
            && ReuseWindow.Next(s, e) == s.(core := ReuseWindow.Next(s, e).core, alive := s.alive + {n})
  {
    var e := Mixing.Accept(PortOf(n));
    Mixing.AcceptedEntry(s.core.mux.writer, s.core.mux.table[PortOf(n)], e.seg);
  }

  lemma Opens(s: Win, dport: U16)
    requires Known(s.core) && Owned(s) && Mixing.SendsTwo(s.core.mux.writer)
    ensures var s', n := ReuseWindow.Next(s, Opening(dport)), s.core.mux.connects;
            && Holds(s'.core, n, PortOf(n)) && s'.core.mux.table[PortOf(n)].state.Connecting?
            && CanSend(s'.core.mux.writer) && n !in s'.alive && !InReports(s', n)
            && s' == s.(core := s'.core)
  {
    OpeningIs(s, dport);
    Mixing.Connected(s.core, dport);
    NotYet(s, s.core.mux.connects);
  }

  lemma NotYet(s: Win, n: nat)
    requires Known(s.core) && Owned(s) && n == s.core.mux.connects
    ensures n !in s.alive && !InReports(s, n)
  {
    assert n in s.core.pumps ==> PumpAt(s.core, n);
  }

  lemma LeftOverReaches(s: Win, dport: U16, id: nat)
    requires ReuseWindow.Inv(s) && Mixing.SendsTwo(s.core.mux.writer)
    requires id in s.core.pumps && s.core.pumps[id].port == s.core.mux.nextPort && Owes(s, id)
    ensures CanBeCredited(ReuseWindow.Next(s, Opening(dport)), s.core.mux.connects)
  {
    var s1, n := ReuseWindow.Next(s, Opening(dport)), s.core.mux.connects;
    var e := Core(Mixing.Accept(PortOf(n)));
    assert PumpAt(s.core, id);
    Opens(s, dport);
    AcceptIs(s1, n);
    ReuseWindow.NextKeeps(s, Opening(dport));
    ReuseWindow.NextKeeps(s1, e);
    NotReported(ReuseWindow.Next(s1, e), s, id);
    OwedReaches(ReuseWindow.Next(s1, e), n, id);
    Sooner(s1, e, n);
  }

  /** A Connect exposes the connection it opens to another connection's drain reports if and only if a
      forwarder of an earlier connection on its port still has chunks to write or a report in the
      channel. Then some run credits the new connection with bytes its client never read; otherwise
      none does, and its receive accounting is exact. */
  lemma CreditIff(s: Win, dport: U16)
    requires ReuseWindow.Reachable(s)
    ensures CanBeCredited(ReuseWindow.Next(s, Opening(dport)), s.core.mux.connects)
            <==> LeftOver(s, s.core.mux.nextPort) && Mixing.SendsTwo(s.core.mux.writer)
  {
    ReuseWindow.ReachableInv(s);
    var s', n := ReuseWindow.Next(s, Opening(dport)), s.core.mux.connects;
    if LeftOver(s, s.core.mux.nextPort) && Mixing.SendsTwo(s.core.mux.writer) {
      var id :| id in s.core.pumps && s.core.pumps[id].port == s.core.mux.nextPort && Owes(s, id);
      LeftOverReaches(s, dport, id);
    } else {
      OpeningSafe(s, dport);
      ReuseWindow.NextKeeps(s, Opening(dport));
      if CanBeCredited(s', n) {
        var events :| ReuseWindow.IsRun(s', events) && Credited(ReuseWindow.Run(s', events), n);
        RunUncredited(s', events, n);
      }
    }
  }

  // ---- whole runs --------------------------------------------------------------------------

  /** No Connect of the run finds anything left over on its port. */
  predicate Tidy(s: Win, events: seq<ReuseWindow.Event>)
    requires ReuseWindow.IsRun(s, events)
    decreases |events|
  {
    events == []
    || ((events[0].Core? && events[0].e.Connect? ==> !LeftOver(s, s.core.mux.nextPort))
        && Tidy(ReuseWindow.Next(s, events[0]), events[1..]))
  }

  ghost predicate NeverCredited(s: Win) {
    forall n :: 0 <= n < s.core.mux.connects ==> !CanBeCredited(s, n)
  }

  lemma Extend(s: Win, e: ReuseWindow.Event)
    requires ReuseWindow.Reachable(s) && ReuseWindow.Can(s, e)
    ensures ReuseWindow.Reachable(ReuseWindow.Next(s, e))
  {
    var w, events :|
      ReuseWindow.IsRun(ReuseWindow.Init(w), events) && ReuseWindow.Run(ReuseWindow.Init(w), events) == s;
    ExtendRun(ReuseWindow.Init(w), events, e);
  }

  lemma {:induction false} ExtendRun(s: Win, events: seq<ReuseWindow.Event>, e: ReuseWindow.Event)
    requires ReuseWindow.IsRun(s, events) && ReuseWindow.Can(ReuseWindow.Run(s, events), e)
    ensures ReuseWindow.IsRun(s, events + [e])
    ensures ReuseWindow.Run(s, events + [e]) == ReuseWindow.Next(ReuseWindow.Run(s, events), e)
    decreases |events|
  {
    if events == [] {
      assert events + [e] == [e] && [e][1..] == [];
      assert ReuseWindow.IsRun(ReuseWindow.Next(s, e), []);
    } else {
      assert (events + [e])[1..] == events[1..] + [e];
      ExtendRun(ReuseWindow.Next(s, events[0]), events[1..], e);
    }
  }

  lemma NextNeverCredited(s: Win, e: ReuseWindow.Event)
    requires ReuseWindow.Reachable(s) && ReuseWindow.Can(s, e) && NeverCredited(s)
    requires e.Core? && e.e.Connect? ==> !LeftOver(s, s.core.mux.nextPort)
    ensures NeverCredited(ReuseWindow.Next(s, e))
  {
    var s' := ReuseWindow.Next(s, e);
    ReuseWindow.ReachableInv(s);
    CoreMoves(s, e);
    if e.Core? && e.e.Connect? {
      CreditIff(s, e.e.dport);
      ConnectIs(s.core, e.e.dport);
    } else if CoreEvent(s, e).Some? {
      Mixing.SameConnects(s.core, CoreEvent(s, e).value);
    }
    forall n | 0 <= n < s'.core.mux.connects ensures !CanBeCredited(s', n) {
      if n < s.core.mux.connects && CanBeCredited(s', n) {
        Sooner(s, e, n);
      }
    }
  }

  lemma {:induction false} TidyRun(s: Win, events: seq<ReuseWindow.Event>)
    requires ReuseWindow.Reachable(s) && NeverCredited(s) && ReuseWindow.IsRun(s, events) && Tidy(s, events)
    ensures ReuseWindow.Reachable(ReuseWindow.Run(s, events)) && NeverCredited(ReuseWindow.Run(s, events))
    decreases |events|
  {
    if events != [] {
      NextNeverCredited(s, events[0]);
      Extend(s, events[0]);
      TidyRun(ReuseWindow.Next(s, events[0]), events[1..]);
    }
  }

  /** In a run none of whose Connects finds anything left over on its port, receive accounting is exact
      for every established connection whose forwarder lives, unless its count has been clipped. */
  lemma TidyRunsCountExactly(w: Writer, events: seq<ReuseWindow.Event>, p: U16)
    requires ReuseWindow.IsRun(ReuseWindow.Init(w), events) && Tidy(ReuseWindow.Init(w), events)
    requires p in ReuseWindow.Run(ReuseWindow.Init(w), events).core.mux.table
    requires var s := ReuseWindow.Run(ReuseWindow.Init(w), events);
             var c := s.core.mux.table[p];
             c.state.Connected? && c.id in s.alive && c.id !in s.clipped
    ensures var s := ReuseWindow.Run(ReuseWindow.Init(w), events);
            var c := s.core.mux.table[p];
            c.rxBuffered == Sum(Of(s.chunks, c.id)) + OwnSum(s.reports, c.id)
  {
    var s0, s := ReuseWindow.Init(w), ReuseWindow.Run(ReuseWindow.Init(w), events);
    assert ReuseWindow.IsRun(s0, []) && ReuseWindow.Run(s0, []) == s0;
    TidyRun(s0, events);
    ReuseWindow.ReachableInv(s);
    var c := s.core.mux.table[p];
    assert EntryAt(s.core, p);
    assert !Credited(s, c.id) by {
      if Credited(s, c.id) { CreditedNow(s, c.id); }
    }
    WindowOffByForeignCredit(s, p);
  }

  // ---- it does happen ----------------------------------------------------------------------

  /** The entry on `p` counts fewer bytes than its client has still to read. */
  ghost predicate Overstates(s: Win, p: U16) {
    && ReuseWindow.Reachable(s) && p in s.core.mux.table && s.core.mux.table[p].state.Connected?
    && var c := s.core.mux.table[p];
       c.id in s.alive && c.id !in s.clipped && c.rxBuffered < Due(s, c.id)
  }

  /** Connection `id` is established on port 1, to a device with a closed window. */
  predicate Serves(s: Win, id: nat) {
    && 1 in s.core.mux.table && s.core.mux.table[1] == Fresh(id, 1, 0).(
                               state := Connected, txSeq := 1, txAck := 1, reply := false, rxTx := true)
    && s.core.mux.writer == Open && id in s.alive && s.clipped == {} && s.reports == []
  }

  function Byte(): PortReuse.Event {
    Packet(Seg(0, 1, 0, 0, ACK, 0, [0]), true)
  }

  lemma ByteEntry(c: Conn, seg: Seg)
    requires c.state.Connected? && c.rxTx && c.pending == [] && !c.clientClosed && c.rxBuffered == 0
    requires seg.flags == ACK && |seg.payload| == 1
    ensures var o := Segment(Open, c, seg, true);
            o.fate.Stay? && o.w == Open && o.deliver == [seg.payload] && o.conn.rxBuffered == 1
            && o.conn.state.Connected? && o.conn.id == c.id
  {
  }

  /** The device sends one byte. */
  lemma OneByte(s: Win, id: nat) returns (s': Win)
    requires ReuseWindow.Reachable(s) && Serves(s, id) && Of(s.chunks, id) == []
    ensures ReuseWindow.Reachable(s') && s'.core.mux.writer == Open && s'.alive == s.alive && s'.reports == []
    ensures s'.clipped == {} && s'.chunks == s.chunks[id := [1]]
    ensures 1 in s'.core.mux.table && s'.core.mux.table[1].id == id && s'.core.mux.table[1].state.Connected?
    ensures s'.core.mux.table[1].rxBuffered == 1
    ensures s'.core.mux.connects == s.core.mux.connects && s'.core.mux.nextPort == s.core.mux.nextPort
    ensures s'.core.pumps == s.core.pumps && s'.core.queue == s.core.queue
  {
    ByteEntry(s.core.mux.table[1], Byte().seg);
    assert Of(s.chunks, id) + [1] == [1];
    Extend(s, Core(Byte()));
    s' := ReuseWindow.Next(s, Core(Byte()));
  }

  lemma Established(s: Win, id: nat) returns (s': Win)
    requires ReuseWindow.Reachable(s) && 1 in s.core.mux.table && s.core.mux.table[1] == Fresh(id, 1, 0)
    requires s.core.mux.writer == Open && id !in s.alive && s.clipped == {} && s.reports == []
    ensures ReuseWindow.Reachable(s') && Serves(s', id) && s'.alive == s.alive + {id}
    ensures s'.chunks == s.chunks && s'.core.queue == s.core.queue && id in s'.core.pumps
    ensures s'.core.pumps == s.core.pumps[id := Pump(1, Lane.Checking)]
    ensures s'.core.mux.connects == s.core.mux.connects && s'.core.mux.nextPort == s.core.mux.nextPort
  {
    var e := Core(Mixing.Accept(1));
    Extend(s, e);
    s' := ReuseWindow.Next(s, e);
  }

  lemma FirstOpening()
    ensures var c := OnConnect(PortReuse.Init(Open), 0);
            && 1 in c.mux.table && c.mux.table[1] == Fresh(0, 1, 0) && c.mux.writer == Open
            && c.mux.connects == 1 && c.mux.nextPort == PortOf(1) && c.queue == [] && c.pumps == map[]
  {
    ConnectIs(PortReuse.Init(Open), 0);
  }

  lemma Starts() returns (s: Win)
    ensures ReuseWindow.Reachable(s)
    ensures 1 in s.core.mux.table && s.core.mux.table[1] == Fresh(0, 1, 0) && s.core.mux.writer == Open
    ensures s.core.mux.connects == 1 && s.core.mux.nextPort == PortOf(1) && s.core.queue == []
    ensures s.alive == {} && s.chunks == map[] && s.clipped == {} && s.reports == [] && s.core.pumps == map[]
  {
    var s0 := ReuseWindow.Init(Open);
    assert ReuseWindow.IsRun(s0, []) && ReuseWindow.Run(s0, []) == s0;
    Extend(s0, Opening(0));
    OpeningIs(s0, 0);
    FirstOpening();
    s := ReuseWindow.Next(s0, Opening(0));
  }

  lemma CycleStep(s: Win, n: nat) returns (s': Win)
    requires ReuseWindow.Reachable(s) && ReuseRuns.Turned(s.core, n) && 1 <= n < System.PORTS
    ensures ReuseWindow.Reachable(s') && ReuseRuns.Turned(s'.core, n + 1) && s' == s.(core := s'.core)
    ensures s'.core.pumps == s.core.pumps
  {
    ReuseRuns.OneMore(s.core, n);
    Extend(s, Opening(0));
    OpeningIs(s, 0);
    s' := ReuseWindow.Next(s, Opening(0));
  }

  /** The rest of a cycle of Connects. */
  lemma {:induction false} Cycle(s: Win, n: nat) returns (s': Win)
    requires ReuseWindow.Reachable(s) && ReuseRuns.Turned(s.core, 1) && 1 <= n <= System.PORTS
    ensures ReuseWindow.Reachable(s') && ReuseRuns.Turned(s'.core, n) && s' == s.(core := s'.core)
    ensures s'.core.pumps == s.core.pumps
  {
    if n == 1 {
      s' := s;
    } else {
      var s0 := Cycle(s, n - 1);
      s' := CycleStep(s0, n - 1);
    }
  }

  /** The first connection has a byte its client has not read; its port comes round again. */
  lemma Unread() returns (s: Win)
    ensures ReuseWindow.Reachable(s) && s.core.mux.writer == Open && s.alive == {0} && s.chunks == map[0 := [1]]
    ensures s.reports == [] && s.clipped == {} && 1 in s.core.mux.table
    ensures s.core.mux.table[1] == Fresh(System.PORTS, 1, 0)
  {
    var s1 := Starts();
    var s2 := Established(s1, 0);
    var s3 := OneByte(s2, 0);
    var s4 := Cycle(s3, System.PORTS);
    Extend(s4, Opening(0));
    OpeningIs(s4, 0);
    ConnectIs(s4.core, 0);
    s := ReuseWindow.Next(s4, Opening(0));
  }

  lemma DrainByte(c: Conn)
    requires c.rxBuffered == 1
    ensures DrainReport(Open, c, 1) == Outcome(Open, [], c.(rxBuffered := 0), Stay, [], [])
  {
  }

  lemma Drained(s: Win) returns (s': Win)
    requires ReuseWindow.Reachable(s) && s.core.mux.writer == Open && s.reports == [Report(0, 1, 1)]
    requires 1 in s.core.mux.table && s.core.mux.table[1].id == System.PORTS && s.core.mux.table[1].rxBuffered == 1
    requires s.core.mux.table[1].state.Connected?
    ensures ReuseWindow.Reachable(s') && s'.alive == s.alive && s'.clipped == s.clipped && s'.reports == []
    ensures s'.chunks == s.chunks
    ensures 1 in s'.core.mux.table && s'.core.mux.table[1] == s.core.mux.table[1].(rxBuffered := 0)
  {
    DrainByte(s.core.mux.table[1]);
    Extend(s, Drains);
    s' := ReuseWindow.Next(s, Drains);
  }

  lemma StaleReport(s: Win) returns (s': Win)
    requires ReuseWindow.Reachable(s) && s.core.mux.writer == Open && 0 in s.alive && s.reports == []
    requires s.chunks == map[0 := [1], System.PORTS := [1]] && 1 in s.core.mux.table
    requires s.core.mux.table[1].id == System.PORTS && s.core.mux.table[1].state.Connected?
    requires s.core.mux.table[1].rxBuffered == 1
    ensures ReuseWindow.Reachable(s') && s'.alive == s.alive && s'.clipped == s.clipped && s'.reports == []
    ensures Of(s'.chunks, System.PORTS) == [1] && 1 in s'.core.mux.table
    ensures s'.core.mux.table[1] == s.core.mux.table[1].(rxBuffered := 0)
  {
    Extend(s, Reports(0));
    var s1 := ReuseWindow.Next(s, Reports(0));
    assert s1.reports == [Report(0, 1, 1)];
    s' := Drained(s1);
  }

  /** The first connection's client reads its byte late, and the report of it credits the connection
      that has the port by then: it shows a window freer than it is. */
  lemma OverstatedWindowHappens()
    ensures exists s :: Overstates(s, 1)
  {
    var s1 := Unread();
    var s2 := Established(s1, System.PORTS);
    var s3 := OneByte(s2, System.PORTS);
    var s := StaleReport(s3);
    assert Sum([1]) == 1;
    assert Overstates(s, 1);
  }
}
