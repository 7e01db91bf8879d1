/** Pumps whose connection has left the table while they were paused: teardown wakes nobody, so such a
    pump sleeps for ever. Here is exactly when that can come about, and when it must. */
module Stranding {
  import opened Prelude
  import opened Codec
  import opened ConnSpec
  import opened System
  import opened MuxTheorems
  import Departures
  import Lane
  import SystemProofs

  predicate Out(s: Sys, p: U16) {
    p in s.lanes && !s.lanes[p].inTable
  }

  predicate Spares(s: Sys, e: Event, p: U16) {
    Can(s, e) && !(e.Connect? && s.nextPort == p)
  }

  /** A step of the pump on port `p`. */
  predicate IsPumpStep(e: Event, p: U16) {
    match e
    case At(q, step) => q == p && (step.PumpChecks? || step.PumpWakes? || step.PumpReads? || step.PumpSeesEof?)
    case PumpSends(q) => q == p
    case _ => false
  }

  /** If event `e` is of port `p`'s own client or tasks, `l` allows it. */
  predicate Possible(l: Lane.Lane, e: Event, p: U16) {
    match e
    case At(q, step) => q == p ==> Lane.Enabled(l, step)
    case PumpSends(q) => q == p ==> l.pump.Holding?
    case ForwarderWrites(q) => q == p ==> l.fwd.Writing?
    case _ => true
  }

  function Moved(l: Lane.Lane, e: Event, p: U16, running: bool): Lane.Lane
    requires Possible(l, e, p)
  {
    match e
    case At(q, step) => if q == p then Lane.Do(l, step) else l
    case PumpSends(q) => if q == p then Lane.PumpSent(l, running) else l
    case ForwarderWrites(q) => if q == p then Lane.ForwarderWrote(l, running) else l
    case _ => l
  }

  lemma ShutdownAside(s: Sys, order: seq<U16>, p: U16)
    requires Out(s, p)
    ensures var s' := ShutDownAll(s, order);
            Out(s', p) && !s'.running && s'.lanes[p] == s.lanes[p]
  {
    Departures.ShutDownSpares(s, order, p);
    StopsRunning(s, order);
  }

  lemma MuxAside(s: Sys, e: Event, p: U16)
    requires Out(s, p) && Spares(s, e, p) && (e.Connect? || e.Process? || e.Drain? || e.Packet? || e.Take?)
    ensures var s' := Next(s, e);
            Out(s', p) && s'.running == s.running && s'.lanes[p] == s.lanes[p]
  {
  }

  /** Of all events, only its own client and tasks still move a connection that has left the table. */
  lemma OnlyItsOwn(s: Sys, e: Event, p: U16)
    requires Out(s, p) && Spares(s, e, p)
    ensures Possible(s.lanes[p], e, p)
    ensures var s' := Next(s, e);
            Out(s', p) && (s'.running ==> s.running) && s'.lanes[p] == Moved(s.lanes[p], e, p, s.running)
  {
    if e.Shutdown? {
      ShutdownAside(s, e.order, p);
    } else if !e.At? && !e.PumpSends? && !e.ForwarderWrites? {
      MuxAside(s, e, p);
    }
  }

  lemma {:induction false} StopsRunning(s: Sys, order: seq<U16>)
    ensures !ShutDownAll(s, order).running
    decreases |order|
  {
    if order != [] {
      StopsRunning(if InTable(s, order[0]) then SystemProofs.CloseOne(s, order[0]) else s, order[1..]);
    }
  }

  // ---- when it can happen ------------------------------------------------------------------

  predicate StrandedAt(s: Sys, p: U16) {
    p in s.lanes && Stranded(s.lanes[p])
  }

  /** Some run that leaves the port alone ends with the pump stranded. */
  ghost predicate CanBeStranded(s: Sys, p: U16) {
    exists events :: IsRun(s, events) && LeavesPort(s, events, p) && StrandedAt(Run(s, events), p)
  }

  /** The pause flag is up, and the pump will test it again: it stands at the test or sleeps behind
      it, or has a chunk to send first while the mux task runs and takes it. A pump on its way out
      with the end of the stream does not come back to the test. */
  predicate Sleepy(l: Lane.Lane, running: bool) {
    l.conn.txPause &&
    match l.pump
    case Checking => true
    case Waiting => true
    case Reading => running && !(l.closed && l.unread == [])
    case Holding(msg) => running && msg.Some?
    case _ => false
  }

  predicate SleepyAt(s: Sys, p: U16) {
    Out(s, p) && Sleepy(s.lanes[p], s.running)
  }

  lemma DoAwake(l: Lane.Lane, step: Lane.Local, running: bool)
    requires Lane.Enabled(l, step) && !Sleepy(l, running)
    ensures !Sleepy(Lane.Do(l, step), running)
  {
    match step {
      case ClientWrites(_) =>
      case ClientCloses =>
      case ClientDrops =>
      case PumpChecks =>
      case PumpWakes =>
      case PumpReads(_) =>
      case PumpSeesEof =>
      case _ =>
    }
  }

  lemma MovedAwake(l: Lane.Lane, e: Event, p: U16, running: bool)
    requires Possible(l, e, p) && !Sleepy(l, running)
    ensures !Sleepy(Moved(l, e, p, running), running)
  {
    if e.At? && e.port == p {
      DoAwake(l, e.step, running);
    }
  }

  lemma StaysAwake(s: Sys, e: Event, p: U16)
    requires Out(s, p) && Spares(s, e, p) && !SleepyAt(s, p)
    ensures Out(Next(s, e), p) && !SleepyAt(Next(s, e), p)
  {
    OnlyItsOwn(s, e, p);
    MovedAwake(s.lanes[p], e, p, s.running);
  }

  lemma {:induction false} AwakeForGood(s: Sys, events: seq<Event>, p: U16)
    requires Out(s, p) && !SleepyAt(s, p)
    requires IsRun(s, events) && LeavesPort(s, events, p)
    ensures Out(Run(s, events), p) && !SleepyAt(Run(s, events), p)
    decreases |events|
  {
    if events != [] {
      StaysAwake(s, events[0], p);
      AwakeForGood(Next(s, events[0]), events[1..], p);
    }
  }

  lemma StrandedNow(s: Sys, p: U16)
    requires StrandedAt(s, p)
    ensures CanBeStranded(s, p)
  {
    assert IsRun(s, []) && LeavesPort(s, [], p) && Run(s, []) == s;
  }

  lemma Sooner(s: Sys, e: Event, p: U16)
    requires Spares(s, e, p) && CanBeStranded(Next(s, e), p)
    ensures CanBeStranded(s, p)
  {
    var s1 := Next(s, e);
    var rest :| IsRun(s1, rest) && LeavesPort(s1, rest, p) && StrandedAt(Run(s1, rest), p);
    var events := [e] + rest;
    assert events[0] == e && events[1..] == rest;
    assert IsRun(s, events) && LeavesPort(s, events, p) && Run(s, events) == Run(s1, rest);
  }

  lemma AtTheTest(s: Sys, p: U16)
    requires Out(s, p) && s.lanes[p].conn.txPause && (s.lanes[p].pump.Checking? || s.lanes[p].pump.Waiting?)
    ensures CanBeStranded(s, p)
    decreases StepsLeft(s.lanes[p])
  {
    if s.lanes[p].pump.Checking? {
      AtTheTest(Next(s, At(p, Lane.PumpChecks)), p);
      Sooner(s, At(p, Lane.PumpChecks), p);
    } else if s.lanes[p].conn.resumePermit {
      AtTheTest(Next(s, At(p, Lane.PumpWakes)), p);
      Sooner(s, At(p, Lane.PumpWakes), p);
    } else {
      StrandedNow(s, p);
    }
  }

  lemma SendsFirst(s: Sys, p: U16)
    requires Out(s, p) && s.lanes[p].conn.txPause && s.running && |s.dataQ| < DATA_CAPACITY
    requires s.lanes[p].pump.Holding? && s.lanes[p].pump.msg.Some?
    ensures CanBeStranded(s, p)
  {
    AtTheTest(Next(s, PumpSends(p)), p);
    Sooner(s, PumpSends(p), p);
  }

  /** With its channel full the pump has to wait until the mux task takes a message. */
  lemma TakesFirst(s: Sys, p: U16)
    requires Out(s, p) && s.lanes[p].conn.txPause && s.running && s.hand.None? && |s.dataQ| <= DATA_CAPACITY
    requires s.lanes[p].pump.Holding? && s.lanes[p].pump.msg.Some?
    ensures CanBeStranded(s, p)
  {
    if |s.dataQ| < DATA_CAPACITY {
      SendsFirst(s, p);
    } else {
      SendsFirst(Next(s, Take), p);
      Sooner(s, Take, p);
    }
  }

  lemma HasChunk(s: Sys, p: U16)
    requires Out(s, p) && s.lanes[p].conn.txPause && s.running && |s.dataQ| <= DATA_CAPACITY
    requires s.lanes[p].pump.Holding? && s.lanes[p].pump.msg.Some?
    ensures CanBeStranded(s, p)
  {
    if s.hand.None? {
      TakesFirst(s, p);
    } else {
      OnlyItsOwn(s, Process, p);
      SystemProofs.ProcessSplits(s);
      TakesFirst(Next(s, Process), p);
      Sooner(s, Process, p);
    }
  }

  lemma ReadsFirst(s: Sys, p: U16)
    requires Out(s, p) && s.lanes[p].conn.txPause && s.running && |s.dataQ| <= DATA_CAPACITY
    requires s.lanes[p].pump.Reading? && s.lanes[p].unread != []
    ensures CanBeStranded(s, p)
  {
    var e := At(p, Lane.PumpReads(1));
    HasChunk(Next(s, e), p);
    Sooner(s, e, p);
  }

  lemma WritesFirst(s: Sys, p: U16)
    requires Out(s, p) && s.lanes[p].conn.txPause && s.running && |s.dataQ| <= DATA_CAPACITY
    requires s.lanes[p].pump.Reading? && s.lanes[p].unread == [] && !s.lanes[p].closed
    ensures CanBeStranded(s, p)
  {
    var e := At(p, Lane.ClientWrites([0]));
    ReadsFirst(Next(s, e), p);
    Sooner(s, e, p);
  }

  lemma SleepyCan(s: Sys, p: U16)
    requires |s.dataQ| <= DATA_CAPACITY && SleepyAt(s, p)
    ensures CanBeStranded(s, p)
  {
    match s.lanes[p].pump
    case Holding(_) => HasChunk(s, p);
    case Reading => if s.lanes[p].unread == [] { WritesFirst(s, p); } else { ReadsFirst(s, p); }
    case _ => AtTheTest(s, p);
  }

  /** Out of the table, a pump can come to be stranded exactly if it is sleepy. */
  lemma SleepyIff(s: Sys, p: U16)
    requires Out(s, p) && |s.dataQ| <= DATA_CAPACITY
    ensures CanBeStranded(s, p) <==> SleepyAt(s, p)
  {
    if SleepyAt(s, p) {
      SleepyCan(s, p);
    } else if CanBeStranded(s, p) {
      var events :| IsRun(s, events) && LeavesPort(s, events, p) && StrandedAt(Run(s, events), p);
      AwakeForGood(s, events, p);
    }
  }

  lemma RoomAfter(s: Sys, e: Event)
    requires Reachable(s) && Can(s, e)
    ensures |Next(s, e).dataQ| <= DATA_CAPACITY
  {
    ReachableInv(s);
    SystemProofs.NextKeeps(s, e);
  }

  lemma PausedLeaves(l: Lane.Lane, l2: Lane.Lane, running: bool, alive: bool)
    requires Departures.Leaves(l, l2, alive)
    ensures Sleepy(l2, running) <==> Sleepy(l, running)
    ensures alive && Sleepy(l2, running) ==> |DataOf(l2.sent)| + TX_LOW_WATER <= |l2.accepted|
  {
  }

  /** Teardown wakes nobody. Whichever event takes a connection out of the table - its client's
      close or a failed send, any segment of the device, the shutdown - some run that leaves the port
      alone strands its pump if and only if the pause flag was up before the event and the pump has
      yet to come to the pause test: it stands there or sleeps, or, while the mux task runs on, it
      holds a chunk or may still read one. No run does if the flag was down or the pump has the end
      of the stream in hand or behind it. And if the writer still receives, at least TX_LOW_WATER of
      the bytes accepted from such a pump are then not on the wire. */
  lemma TeardownStrandsPump(s: Sys, e: Event, p: U16)
    requires Reachable(s) && Can(s, e) && InTable(s, p) && !InTable(Next(s, e), p)
    ensures var s', l := Next(s, e), s.lanes[p];
            && p in s'.lanes
            && (CanBeStranded(s', p) <==> Sleepy(l, s'.running))
            && (CanBeStranded(s', p) && CanSend(s'.writer) ==>
                  |DataOf(OwnedBy(s'.wire, l.conn.id))| + TX_LOW_WATER <= |s'.lanes[p].accepted|)
  {
    Departures.Departed(s, e, p);
    RoomAfter(s, e);
    SleepyIff(Next(s, e), p);
    PausedLeaves(s.lanes[p], Next(s, e).lanes[p], Next(s, e).running, CanSend(Next(s, e).writer));
  }

  // ---- when it must ------------------------------------------------------------------------

  /** Paused, at the test or asleep behind it. */
  predicate Dozing(l: Lane.Lane) {
    !l.inTable && l.conn.txPause && (l.pump.Checking? || l.pump.Waiting?)
  }

  /** The steps such a pump has left: a stored permit lets it round the loop once more. */
  function StepsLeft(l: Lane.Lane): nat {
    (if l.pump.Checking? then 1 else 0) + if l.conn.resumePermit then 2 else 0
  }

  function PumpSteps(events: seq<Event>, p: U16): nat {
    if events == [] then 0 else (if IsPumpStep(events[0], p) then 1 else 0) + PumpSteps(events[1..], p)
  }

  lemma DoDozes(l: Lane.Lane, step: Lane.Local, p: U16)
    requires Lane.Enabled(l, step) && Dozing(l)
    ensures var l' := Lane.Do(l, step);
            && Dozing(l') && l'.pumped == l.pumped
            && StepsLeft(l) == StepsLeft(l') + if IsPumpStep(At(p, step), p) then 1 else 0
  {
    match step {
      case PumpChecks =>
      case PumpWakes =>
      case _ =>
    }
  }

  lemma MovedDozes(l: Lane.Lane, e: Event, p: U16, running: bool)
    requires Possible(l, e, p) && Dozing(l)
    ensures var l' := Moved(l, e, p, running);
            && Dozing(l') && l'.pumped == l.pumped
            && StepsLeft(l) == StepsLeft(l') + if IsPumpStep(e, p) then 1 else 0
  {
    if e.At? && e.port == p {
      DoDozes(l, e.step, p);
    }
  }

  lemma DozesOn(s: Sys, e: Event, p: U16)
    requires p in s.lanes && Dozing(s.lanes[p]) && Spares(s, e, p)
    ensures var s', l := Next(s, e), s.lanes[p];
            && p in s'.lanes && Dozing(s'.lanes[p]) && s'.lanes[p].pumped == l.pumped
            && StepsLeft(l) == StepsLeft(s'.lanes[p]) + if IsPumpStep(e, p) then 1 else 0
  {
    OnlyItsOwn(s, e, p);
    MovedDozes(s.lanes[p], e, p, s.running);
  }

  /** A paused pump whose connection has gone has at most three steps left, whatever else happens and
      however long: in every run it reads nothing more, the steps it takes are those it had left, and
      it is stranded exactly when they are used up; until then its next step is possible. */
  lemma {:induction false} DozesOff(s: Sys, events: seq<Event>, p: U16)
    requires p in s.lanes && Dozing(s.lanes[p])
    requires IsRun(s, events) && LeavesPort(s, events, p)
    ensures var s', l := Run(s, events), s.lanes[p];
            && p in s'.lanes && s'.lanes[p].pumped == l.pumped
            && PumpSteps(events, p) + StepsLeft(s'.lanes[p]) == StepsLeft(l) <= 3
            && (Stranded(s'.lanes[p]) <==> PumpSteps(events, p) == StepsLeft(l))
            && (!Stranded(s'.lanes[p]) ==> exists e :: Can(s', e) && IsPumpStep(e, p))
    decreases |events|
  {
    if events != [] {
      DozesOn(s, events[0], p);
      DozesOff(Next(s, events[0]), events[1..], p);
    } else if !Stranded(s.lanes[p]) {
      var e := At(p, if s.lanes[p].pump.Checking? then Lane.PumpChecks else Lane.PumpWakes);
      assert Can(s, e) && IsPumpStep(e, p);
    }
  }
}
