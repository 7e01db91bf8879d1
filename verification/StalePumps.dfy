/** When a pump outlives its connection: what such a pump can still do, and exactly which Connects
    expose the new connection to messages of another client. */
module StalePumps {
  import opened Prelude
  import opened Codec
  import opened ConnSpec
  import opened PortReuse
  import opened ReuseProofs
  import Lane
  import MuxTheorems
  import System

  // ---- what has gone stays gone ------------------------------------------------------------

  predicate StillGone(s: Shared, s': Shared, id: nat) {
    && id in s.left && id in s'.left
    && s'.left[id].why == s.left[id].why && OnlyPermit(s.left[id].conn, s'.left[id].conn)
    && Of(s'.sent, id) == Of(s.sent, id) && Of(s'.taken, id) == Of(s.taken, id)
  }

  lemma ConnectGone(s: Shared, dport: U16, id: nat)
    requires Known(s) && id in s.left
    ensures StillGone(s, OnConnect(s, dport), id)
  {
    ConnectIs(s, dport);
    if s.mux.nextPort in s.mux.table {
      OtherIds(s, s.mux.nextPort);
    }
  }

  lemma EntryGone(s: Shared, s': Shared, p: U16, o: Outcome, pieces: seq<Piece>, id: nat)
    requires Known(s) && id in s.left && EntryEvent(s, s', p, o, pieces)
    ensures StillGone(s, s', id) && id != o.conn.id
  {
    OtherIds(s, p);
  }

  /** Once a connection has no entry it never has one again; it takes and sends nothing more. */
  lemma GoneStays(s: Shared, e: Event, id: nat)
    requires Known(s) && Can(s, e) && id in s.left
    ensures StillGone(s, Next(s, e), id)
  {
    var k := Classify(s, e);
    match k {
      case Opens => ConnectGone(s, e.dport, id);
      case Entry(p, o, pieces) => EntryGone(s, Next(s, e), p, o, pieces, id);
      case Pumps(x) => PumpIs(s, e, x);
      case Nothing =>
    }
  }

  lemma {:induction false} GoneForGood(s: Shared, events: seq<Event>, id: nat)
    requires Inv(s) && IsRun(s, events) && id in s.left
    ensures var s' := Run(s, events);
            && id in s'.left && s'.left[id].conn.pending == s.left[id].conn.pending
            && Of(s'.sent, id) == Of(s.sent, id) && Of(s'.taken, id) == Of(s.taken, id)
    decreases |events|
  {
    if events != [] {
      GoneStays(s, events[0], id);
      NextKeeps(s, events[0]);
      GoneForGood(Next(s, events[0]), events[1..], id);
    }
  }

  lemma GoneGate(s: Shared, id: nat)
    requires Known(s) && id in s.pumps && id in s.left
    ensures Gate(s, id) == s.left[id].conn && s.pumps[id].port == PortOf(id)
  {
    assert PumpAt(s, id) && LeftAt(s, id);
  }

  // ---- pumps that will not send again ------------------------------------------------------

  /** The pump has ended, or stands at the pause test or sleeps behind it with the flag up. */
  predicate Silent(s: Shared, id: nat)
    requires id in s.pumps
  {
    var at := s.pumps[id].at;
    at.PumpDone? || ((at.Checking? || at.Waiting?) && Gate(s, id).txPause)
  }

  /** Silent, with nobody left to lift the pause. */
  predicate Spent(s: Shared, id: nat) {
    id in s.pumps && id in s.left && Silent(s, id)
  }

  predicate InQueue(s: Shared, id: nat) {
    exists i :: 0 <= i < |s.queue| && s.queue[i].sender == id
  }

  lemma OtherPump(s: Shared, e: Event, x: nat, id: nat)
    requires Known(s) && Can(s, e) && IsPumpEvent(e, x) && Spent(s, id) && x != id
    ensures Spent(Next(s, e), id) && (InQueue(Next(s, e), id) ==> InQueue(s, id))
  {
    GoneStays(s, e, id);
    PumpIs(s, e, x);
    PumpGate(s, e, x, id);
  }

  lemma OwnPump(s: Shared, e: Event, id: nat)
    requires Known(s) && Can(s, e) && IsPumpEvent(e, id) && Spent(s, id)
    ensures !e.PumpSends? && Spent(Next(s, e), id) && Next(s, e).queue == s.queue
  {
    GoneStays(s, e, id);
    PumpIs(s, e, id);
    PumpGate(s, e, id, id);
  }

  lemma ConnectSpent(s: Shared, dport: U16, id: nat)
    requires Known(s) && Spent(s, id)
    ensures Spent(OnConnect(s, dport), id)
  {
    ConnectGone(s, dport, id);
    ConnectIs(s, dport);
    ConnectGate(s, dport, id);
  }

  lemma EntrySpent(s: Shared, s': Shared, p: U16, o: Outcome, pieces: seq<Piece>, id: nat)
    requires Known(s) && Spent(s, id) && EntryEvent(s, s', p, o, pieces)
    ensures Spent(s', id)
  {
    EntryGone(s, s', p, o, pieces, id);
    EntryGate(s, s', p, o, pieces, id);
  }

  lemma NotQueued(s: Shared, s': Shared, id: nat)
    requires s'.queue == s.queue || (s.queue != [] && s'.queue == s.queue[1..])
    ensures InQueue(s', id) ==> InQueue(s, id)
  {
    if i :| 0 <= i < |s'.queue| && s'.queue[i].sender == id {
      assert s.queue[if s'.queue == s.queue then i else i + 1].sender == id;
    }
  }

  /** A spent pump stays spent and sends nothing, whatever happens. */
  lemma SpentStays(s: Shared, e: Event, id: nat)
    requires Known(s) && Can(s, e) && Spent(s, id)
    ensures Spent(Next(s, e), id) && e != PumpSends(id) && (InQueue(Next(s, e), id) ==> InQueue(s, id))
  {
    var k := Classify(s, e);
    match k {
      case Opens =>
        ConnectSpent(s, e.dport, id);
        NotQueued(s, Next(s, e), id);
      case Entry(p, o, pieces) =>
        EntrySpent(s, Next(s, e), p, o, pieces, id);
        NotQueued(s, Next(s, e), id);
      case Pumps(x) => if x == id { OwnPump(s, e, id); } else { OtherPump(s, e, x, id); }
      case Nothing => NotQueued(s, Next(s, e), id);
    }
  }

  /** In some run from here the pump sends a message. */
  ghost predicate WillSend(s: Shared, id: nat) {
    exists events :: IsRun(s, events) && Can(Run(s, events), PumpSends(id))
  }

  lemma {:induction false} SpentForGood(s: Shared, events: seq<Event>, id: nat)
    requires Inv(s) && IsRun(s, events) && Spent(s, id)
    ensures Spent(Run(s, events), id)
    decreases |events|
  {
    if events != [] {
      SpentStays(s, events[0], id);
      NextKeeps(s, events[0]);
      SpentForGood(Next(s, events[0]), events[1..], id);
    }
  }

  lemma Earlier(s: Shared, e: Event, id: nat)
    requires Can(s, e) && WillSend(Next(s, e), id)
    ensures WillSend(s, id)
  {
    var s1 := Next(s, e);
    var rest :| IsRun(s1, rest) && Can(Run(s1, rest), PumpSends(id));
    var events := [e] + rest;
    assert events[0] == e && events[1..] == rest;
    assert IsRun(s, events) && Run(s, events) == Run(s1, rest);
  }

  /** How far a pump that is not silent is from its next message. */
  function Distance(at: Lane.Pump): nat {
    match at
    case Waiting => 3
    case Checking => 2
    case Reading => 1
    case _ => 0
  }

  /** The next step of a pump that is neither silent nor about to send. */
  function Step(s: Shared, id: nat): Event
    requires id in s.pumps
  {
    match s.pumps[id].at
    case Waiting => PumpWakes(id)
    case Checking => PumpChecks(id)
    case _ => PumpReads(id, [0])
  }

  lemma StepsOn(s: Shared, id: nat)
    requires Inv(s) && id in s.pumps && !Silent(s, id) && !s.pumps[id].at.Holding?
    ensures var e := Step(s, id);
            && Can(s, e) && IsPumpEvent(e, id) && !e.PumpSends?
            && var s' := Next(s, e);
               id in s'.pumps && !Silent(s', id) && Distance(s'.pumps[id].at) < Distance(s.pumps[id].at)
  {
    assert PermitAt(s, id) && PumpAt(s, id);
    PumpGate(s, Step(s, id), id, id);
  }

  lemma {:induction false} NotSilentSends(s: Shared, id: nat)
    requires Inv(s) && id in s.pumps && !Silent(s, id)
    ensures WillSend(s, id)
    decreases Distance(s.pumps[id].at)
  {
    if s.pumps[id].at.Holding? {
      assert IsRun(s, []) && Run(s, []) == s;
    } else {
      StepsOn(s, id);
      NextKeeps(s, Step(s, id));
      NotSilentSends(Next(s, Step(s, id)), id);
      Earlier(s, Step(s, id), id);
    }
  }

  /** A pump whose connection has no entry any more can send again if and only if it is not silent. */
  lemma OrphanSendsIff(s: Shared, id: nat)
    requires Inv(s) && id in s.pumps && id in s.left
    ensures WillSend(s, id) <==> !Silent(s, id)
  {
    if Silent(s, id) {
      if WillSend(s, id) {
        var events :| IsRun(s, events) && Can(Run(s, events), PumpSends(id));
        SpentForGood(s, events, id);
      }
    } else {
      NotSilentSends(s, id);
    }
  }
}
