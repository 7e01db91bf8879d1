/** The whole mux: the event loop of `run` over its connection table, with every connection's
    tasks beside it and the shared channels between them. */
module System {
  import opened Prelude
  import opened Codec
  import opened ConnSpec
  import Lane

  const DATA_CAPACITY := 64
  const PORTS := 65535

  /** A frame on the wire; `owner` is the Connect ordinal of the connection that sent it, None for
      the RST that answers a segment for an unknown port. */
  datatype Wire = Wire(owner: Option<nat>, seg: Seg)

  /** `lanes` holds, per source port, the latest connection opened on it; the connection table is
      the part with `inTable`. `dataQ` and `drainQ` are the two internal channels and `hand` a
      data message the loop has received and not yet acted on. `replies` logs every resolved
      Connect, `connects` counts the processed ones. */
  datatype Sys = Sys(
    lanes: map<U16, Lane.Lane>,
    nextPort: U16,
    connects: nat,
    dataQ: seq<(U16, Option<Bytes>)>,
    hand: Option<(U16, Option<Bytes>)>,
    drainQ: seq<(U16, U32)>,
    writer: Writer,
    wire: seq<Wire>,
    replies: seq<Answer>,
    running: bool)

  datatype Event =
    | Connect(dport: U16)
    | Take
    | Process
    | Drain
    | Packet(seg: Seg)
    | Shutdown(order: seq<U16>)
    | At(port: U16, step: Lane.Local)
    | PumpSends(port: U16)
    | ForwarderWrites(port: U16)

  function Init(w: Writer): Sys {
    Sys(map[], 1, 0, [], None, [], w, [], [], true)
  }

  predicate InTable(s: Sys, p: U16) {
    p in s.lanes && s.lanes[p].inTable
  }

  function Proj<T>(q: seq<(U16, T)>, p: U16): seq<T> {
    if q == [] then [] else (if q[0].0 == p then [q[0].1] else []) + Proj(q[1..], p)
  }

  /** The messages from port `p` that have left its pump and are not yet processed. */
  function DataFor(s: Sys, p: U16): seq<Option<Bytes>> {
    (if s.hand.Some? && s.hand.value.0 == p then [s.hand.value.1] else []) + Proj(s.dataQ, p)
  }

  function DrainsFor(s: Sys, p: U16): seq<U32> {
    Proj(s.drainQ, p)
  }

  /** The pump waits, paused, for a permit that only its table entry could give. */
  predicate Stranded(l: Lane.Lane) {
    !l.inTable && l.pump.Waiting? && l.conn.txPause && !l.conn.resumePermit
  }

  /** Nothing that can still act is left of the connection that used the port before: not the entry,
      nor its pump or forwarder, nor a message of theirs. Without this a Connect would overwrite a
      live entry, or a stale pump would write into the new connection. */
  predicate PortQuiet(s: Sys, p: U16) {
    p in s.lanes ==>
      && !s.lanes[p].inTable
      && (s.lanes[p].pump.PumpOff? || s.lanes[p].pump.PumpDone? || Stranded(s.lanes[p]))
      && (s.lanes[p].fwd.FwdOff? || s.lanes[p].fwd.FwdDone?)
      && DataFor(s, p) == [] && DrainsFor(s, p) == []
  }

  predicate IsTableOrder(s: Sys, order: seq<U16>) {
    && (forall i, j :: 0 <= i < j < |order| ==> order[i] != order[j])
    && (forall p :: p in order <==> InTable(s, p))
  }

  predicate Can(s: Sys, e: Event) {
    match e
    case Connect(_) => s.running && s.hand.None? && PortQuiet(s, s.nextPort)
    case Take => s.running && s.hand.None? && s.dataQ != []
    case Process => s.running && s.hand.Some?
    case Drain => s.running && s.hand.None? && s.drainQ != []
    case Packet(_) => s.running && s.hand.None?
    case Shutdown(order) => s.running && s.hand.None? && IsTableOrder(s, order)
    case At(p, step) => p in s.lanes && Lane.Enabled(s.lanes[p], step)
    case PumpSends(p) => p in s.lanes && s.lanes[p].pump.Holding? && (s.running ==> |s.dataQ| < DATA_CAPACITY)
    case ForwarderWrites(p) => p in s.lanes && s.lanes[p].fwd.Writing?
  }

  function Owned(id: nat, segs: seq<Seg>): seq<Wire> {
    if segs == [] then [] else [Wire(Some(id), segs[0])] + Owned(id, segs[1..])
  }

  /** The frames of connection `id` among all on the wire, in order. */
  function OwnedBy(wire: seq<Wire>, id: nat): seq<Seg> {
    if wire == [] then []
    else (if wire[0].owner == Some(id) then [wire[0].seg] else []) + OwnedBy(wire[1..], id)
  }

  /** The effect of an outcome of the connection in lane `p`. */
  function Commit(s: Sys, p: U16, l: Lane.Lane, o: Outcome): Sys {
    s.(lanes := s.lanes[p := l], writer := o.w, wire := s.wire + Owned(l.conn.id, o.segs),
       replies := s.replies + o.replies)
  }

  function ProcessMessage(s: Sys): Sys
    requires s.hand.Some?
  {
    var (p, msg) := s.hand.value;
    var s1 := s.(hand := None);
    if InTable(s, p) then
      Commit(s1, p, Lane.OnMessage(s.lanes[p], s.writer, msg), ClientMessage(s.writer, s.lanes[p].conn, msg))
    else s1
  }

  function ProcessDrain(s: Sys): Sys
    requires s.drainQ != []
  {
    var (p, n) := s.drainQ[0];
    var s1 := s.(drainQ := s.drainQ[1..]);
    if InTable(s, p) then
      Commit(s1, p, Lane.OnDrain(s.lanes[p], s.writer, n), DrainReport(s.writer, s.lanes[p].conn, n))
    else s1
  }

  function ProcessPacket(s: Sys, seg: Seg): Sys {
    var p := seg.dst;
    if InTable(s, p) then
      Commit(s, p, Lane.OnSegment(s.lanes[p], s.writer, seg),
             Segment(s.writer, s.lanes[p].conn, seg, Lane.FwdAlive(s.lanes[p])))
    else if Stranger(seg) == [] then s
    else s.(writer := SendWriter(s.writer, []),
            wire := s.wire + if SendOk(s.writer, []) then [Wire(None, Stranger(seg)[0])] else [])
  }

  function OpenNext(s: Sys, dport: U16): Sys {
    var o := Opened(s.writer, s.connects, s.nextPort, dport);
    var s1 := s.(nextPort := NextPort(s.nextPort), connects := s.connects + 1);
    if o.fate.Stay? then Commit(s1, s.nextPort, Lane.Born(o), o)
    else s1.(writer := o.w, replies := s.replies + o.replies)
  }

  /** Best-effort RST for every entry, in the order the table yields them. */
  function ShutDownAll(s: Sys, order: seq<U16>): Sys
    decreases |order|
  {
    if order == [] then s.(running := false)
    else
      var p := order[0];
      var s1 := if InTable(s, p) then
                  Commit(s, p, Lane.OnShutdown(s.lanes[p], s.writer),
                         ResetAndRemove(s.writer, [], s.lanes[p].conn, ShutDown))
                else s;
      ShutDownAll(s1, order[1..])
  }

  function Next(s: Sys, e: Event): Sys
    requires Can(s, e)
  {
    match e
    case Connect(dport) => OpenNext(s, dport)
    case Take => s.(hand := Some(s.dataQ[0]), dataQ := s.dataQ[1..])
    case Process => ProcessMessage(s)
    case Drain => ProcessDrain(s)
    case Packet(seg) => ProcessPacket(s, seg)
    case Shutdown(order) => ShutDownAll(s, order)
    case At(p, step) => s.(lanes := s.lanes[p := Lane.Do(s.lanes[p], step)])
    case PumpSends(p) =>
      s.(lanes := s.lanes[p := Lane.PumpSent(s.lanes[p], s.running)],
         dataQ := if s.running then s.dataQ + [(p, s.lanes[p].pump.msg)] else s.dataQ)
    case ForwarderWrites(p) =>
      s.(lanes := s.lanes[p := Lane.ForwarderWrote(s.lanes[p], s.running)],
         drainQ := if s.running then s.drainQ + [(p, |s.lanes[p].fwd.chunk| % 0x1_0000_0000)] else s.drainQ)
  }

  /** The runs: every finite sequence of events, each possible when it happens. */
  predicate IsRun(s: Sys, events: seq<Event>)
    decreases |events|
  {
    events == [] || (Can(s, events[0]) && IsRun(Next(s, events[0]), events[1..]))
  }

  function Run(s: Sys, events: seq<Event>): Sys
    requires IsRun(s, events)
    decreases |events|
  {
    if events == [] then s else Run(Next(s, events[0]), events[1..])
  }

  // ---- the invariant ---------------------------------------------------------------------

  predicate LaneOk(s: Sys, p: U16)
    requires p in s.lanes
  {
    var l := s.lanes[p];
    && Lane.Inv(l, DataFor(s, p), DrainsFor(s, p), CanSend(s.writer))
    && l.conn.sport == p && l.conn.id < s.connects
    && OwnedBy(s.wire, l.conn.id) == l.sent
  }

  predicate Queues(s: Sys) {
    && |s.dataQ| <= DATA_CAPACITY
    && (forall m :: m in s.dataQ ==> m.0 in s.lanes)
    && (s.hand.Some? ==> s.hand.value.0 in s.lanes)
    && (forall m :: m in s.drainQ ==> m.0 in s.lanes)
  }

  predicate Replied(s: Sys, id: nat) {
    exists i :: 0 <= i < |s.replies| && s.replies[i].id == id
  }

  /** The Connect with ordinal `id` is waiting for its reply in the table entry for port `p`. */
  predicate PendingAt(s: Sys, p: U16, id: nat) {
    InTable(s, p) && s.lanes[p].conn.reply && s.lanes[p].conn.id == id
  }

  /** Every processed Connect is answered once or waiting, and never both. */
  ghost predicate Accounts(s: Sys) {
    && (forall i, j :: 0 <= i < j < |s.replies| ==> s.replies[i].id != s.replies[j].id)
    && (forall i :: 0 <= i < |s.replies| ==> s.replies[i].id < s.connects)
    && (forall p, id :: PendingAt(s, p, id) ==> !Replied(s, id))
    && (forall id :: 0 <= id < s.connects ==> Replied(s, id) || exists p :: PendingAt(s, p, id))
  }

  ghost predicate Ids(s: Sys) {
    && (forall p, q :: p in s.lanes && q in s.lanes && s.lanes[p].conn.id == s.lanes[q].conn.id ==> p == q)
    && (forall i :: 0 <= i < |s.wire| && s.wire[i].owner.Some? ==> s.wire[i].owner.value < s.connects)
    && s.nextPort == 1 + s.connects % PORTS
    && (forall p :: p in s.lanes ==> p == 1 + s.lanes[p].conn.id % PORTS && s.lanes[p].conn.id < s.connects)
  }

  /** After shutdown the table is empty. */
  ghost predicate Halted(s: Sys) {
    !s.running ==> forall p :: !InTable(s, p)
  }

  ghost predicate Inv(s: Sys) {
    && (forall p :: p in s.lanes ==> LaneOk(s, p))
    && Queues(s)
    && Accounts(s)
    && Ids(s)
    && Halted(s)
  }
}
