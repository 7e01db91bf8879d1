/** The mux without any guard on source ports. A Connect never waits: it overwrites whatever entry the
    port still has. The pumps of connections that have left the table, or lost their entry, live on,
    each looking at the pause flag of its own connection; their messages carry the port only, so the
    entry that has the port takes them. */
module PortReuse {
  import opened Prelude
  import opened Codec
  import opened ConnSpec
  import Lane
  import MuxSpec
  import System

  /** A message of the pump of connection `sender`, under its port. */
  datatype Msg = Msg(sender: nat, port: U16, payload: Option<Bytes>)

  /** A message an entry has acted on: bytes, or the end of a client's stream. */
  datatype Piece = Piece(sender: nat, payload: Option<Bytes>)

  datatype Pump = Pump(port: U16, at: Lane.Pump)

  /** The last of a connection's fields, and why its entry was removed; None if it was overwritten. */
  datatype Former = Former(conn: Conn, why: Option<Why>)

  /** `pumps` holds every pump ever started, by the ordinal of its connection; `left` the connections
      that had an entry and have none any more. `taken` is what each connection's entry has acted on,
      and from whose pump; `sent` the frames the entry has put on the wire since its SYN. */
  datatype Shared = Shared(
    mux: MuxSpec.Mux,
    pumps: map<nat, Pump>,
    left: map<nat, Former>,
    queue: seq<Msg>,
    taken: map<nat, seq<Piece>>,
    sent: map<nat, seq<Seg>>)

  /** The port of the `id`-th Connect. */
  function PortOf(id: nat): U16 {
    1 + id % System.PORTS
  }

  function Of<T>(m: map<nat, seq<T>>, id: nat): seq<T> {
    if id in m then m[id] else []
  }

  function Init(w: Writer): Shared {
    Shared(MuxSpec.Mux(map[], 1, 0, w, [], []), map[], map[], [], map[], map[])
  }

  /** Packets and drain reports are arbitrary, and so is what a client writes and when it closes. */
  datatype Event =
    | Connect(dport: U16)
    | Packet(seg: Seg, userAlive: bool)
    | Drain(port: U16, n: U32)
    | Process
    | PumpChecks(id: nat)
    | PumpWakes(id: nat)
    | PumpReads(id: nat, chunk: Bytes)
    | PumpSeesEof(id: nat)
    | PumpSends(id: nat)

  predicate Holds(s: Shared, id: nat, p: U16) {
    p in s.mux.table && s.mux.table[p].id == id
  }

  /** The connection whose pause flag and permit pump `id` shares, as it is or as it last was. */
  function Gate(s: Shared, id: nat): Conn
    requires id in s.pumps
  {
    var p := s.pumps[id].port;
    if Holds(s, id, p) then s.mux.table[p] else if id in s.left then s.left[id].conn else Fresh(id, p, 0)
  }

  predicate Can(s: Shared, e: Event) {
    match e
    case Process => s.queue != []
    case PumpChecks(id) => id in s.pumps && s.pumps[id].at.Checking?
    case PumpWakes(id) => id in s.pumps && s.pumps[id].at.Waiting? && Gate(s, id).resumePermit
    case PumpReads(id, chunk) => id in s.pumps && s.pumps[id].at.Reading? && 0 < |chunk| <= MAX_PAYLOAD
    case PumpSeesEof(id) => id in s.pumps && s.pumps[id].at.Reading?
    case PumpSends(id) => id in s.pumps && s.pumps[id].at.Holding?
    case _ => true
  }

  /** The entry at `p` has had outcome `o`, which took the mux task to `m`. */
  function Track(s: Shared, m: MuxSpec.Mux, p: U16, o: Outcome): Shared
    requires p in s.mux.table
  {
    var c := s.mux.table[p];
    s.(mux := m,
       sent := s.sent[c.id := Of(s.sent, c.id) + o.segs],
       pumps := if !c.state.Connected? && o.conn.state.Connected? then s.pumps[c.id := Pump(p, Lane.Checking)]
                else s.pumps,
       left := if o.fate.Stay? then s.left else s.left[c.id := Former(o.conn, Some(o.fate.why))])
  }

  function OnConnect(s: Shared, dport: U16): Shared {
    var p, m := s.mux.nextPort, MuxSpec.OnConnect(s.mux, dport);
    if CanSend(s.mux.writer) && p in s.mux.table then
      s.(mux := m, left := s.left[s.mux.table[p].id := Former(s.mux.table[p], None)])
    else s.(mux := m)
  }

  function OnPacket(s: Shared, seg: Seg, userAlive: bool): Shared {
    var p, m := seg.dst, MuxSpec.OnSegment(s.mux, seg, userAlive);
    if p in s.mux.table then Track(s, m, p, Segment(s.mux.writer, s.mux.table[p], seg, userAlive)) else s.(mux := m)
  }

  function OnDrain(s: Shared, p: U16, n: U32): Shared {
    var m := MuxSpec.OnDrain(s.mux, p, n);
    if p in s.mux.table then Track(s, m, p, DrainReport(s.mux.writer, s.mux.table[p], n)) else s.(mux := m)
  }

  /** The entry at the message's port acts on it if it is connected. */
  predicate Takes(s: Shared, msg: Msg) {
    msg.port in s.mux.table && s.mux.table[msg.port].state.Connected?
  }

  function OnProcess(s: Shared): Shared
    requires s.queue != []
  {
    var msg := s.queue[0];
    var s1 := s.(queue := s.queue[1..]);
    var m := MuxSpec.OnMessage(s.mux, msg.port, msg.payload);
    if Takes(s, msg) then
      var c := s.mux.table[msg.port];
      Track(s1, m, msg.port, ClientMessage(s.mux.writer, c, msg.payload)).(
        taken := s.taken[c.id := Of(s.taken, c.id) + [Piece(msg.sender, msg.payload)]])
    else s1.(mux := m)
  }

  function Move(s: Shared, id: nat, at: Lane.Pump): Shared
    requires id in s.pumps
  {
    s.(pumps := s.pumps[id := s.pumps[id].(at := at)])
  }

  function UsePermit(s: Shared, id: nat): Shared
    requires id in s.pumps
  {
    var p := s.pumps[id].port;
    if Holds(s, id, p) then
      s.(mux := s.mux.(table := s.mux.table[p := s.mux.table[p].(resumePermit := false)]))
    else if id in s.left then
      s.(left := s.left[id := s.left[id].(conn := s.left[id].conn.(resumePermit := false))])
    else s
  }

  function Next(s: Shared, e: Event): Shared
    requires Can(s, e)
  {
    match e
    case Connect(dport) => OnConnect(s, dport)
    case Packet(seg, userAlive) => OnPacket(s, seg, userAlive)
    case Drain(port, n) => OnDrain(s, port, n)
    case Process => OnProcess(s)
    case PumpChecks(id) => Move(s, id, if Gate(s, id).txPause then Lane.Waiting else Lane.Reading)
    case PumpWakes(id) => Move(UsePermit(s, id), id, Lane.Checking)
    case PumpReads(id, chunk) => Move(s, id, Lane.Holding(Some(chunk)))
    case PumpSeesEof(id) => Move(s, id, Lane.Holding(None))
    case PumpSends(id) =>
      var msg := s.pumps[id].at.msg;
      Move(s, id, if msg.Some? then Lane.Checking else Lane.PumpDone).(
        queue := s.queue + [Msg(id, s.pumps[id].port, msg)])
  }

  predicate IsRun(s: Shared, events: seq<Event>)
    decreases |events|
  {
    events == [] || (Can(s, events[0]) && IsRun(Next(s, events[0]), events[1..]))
  }

  function Run(s: Shared, events: seq<Event>): Shared
    requires IsRun(s, events)
    decreases |events|
  {
    if events == [] then s else Run(Next(s, events[0]), events[1..])
  }

  ghost predicate Reachable(s: Shared) {
    exists w, events :: IsRun(Init(w), events) && Run(Init(w), events) == s
  }

  lemma {:induction false} RunSnoc(s: Shared, events: seq<Event>, e: Event)
    requires IsRun(s, events) && Can(Run(s, events), e)
    ensures IsRun(s, events + [e]) && Run(s, events + [e]) == Next(Run(s, events), e)
    decreases |events|
  {
    if events == [] {
      assert events + [e] == [e] && [e][1..] == [];
      assert IsRun(Next(s, e), []);
    } else {
      assert (events + [e])[1..] == events[1..] + [e];
      RunSnoc(Next(s, events[0]), events[1..], e);
    }
  }

  lemma Reaches(s: Shared, e: Event)
    requires Reachable(s) && Can(s, e)
    ensures Reachable(Next(s, e))
  {
    var w, events :| IsRun(Init(w), events) && Run(Init(w), events) == s;
    RunSnoc(Init(w), events, e);
  }
}
