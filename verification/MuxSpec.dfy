/** The mux task as a state with one transition per arm of its event loop. */
module MuxSpec {
  import opened Prelude
  import opened Codec
  import opened ConnSpec

  /** The connection table, the port counter, the number of Connects processed, the writer channel,
      the segments sent and the Connect replies given. */
  datatype Mux = Mux(
    table: map<U16, Conn>,
    nextPort: U16,
    connects: nat,
    writer: Writer,
    segs: seq<Seg>,
    replies: seq<Answer>)

  function Put(table: map<U16, Conn>, p: U16, o: Outcome): map<U16, Conn> {
    if o.fate.Stay? then table[p := o.conn] else table - {p}
  }

  function OnOutcome(m: Mux, p: U16, o: Outcome): Mux {
    m.(table := Put(m.table, p, o), writer := o.w, segs := m.segs + o.segs, replies := m.replies + o.replies)
  }

  /** A Connect takes the next port whether or not its SYN can be sent, and overwrites whatever
      entry the port still has. */
  function OnConnect(m: Mux, dport: U16): Mux {
    var o := Opened(m.writer, m.connects, m.nextPort, dport);
    var m1 := m.(nextPort := NextPort(m.nextPort), connects := m.connects + 1);
    if o.fate.Stay? then OnOutcome(m1, m.nextPort, o)
    else m1.(writer := o.w, replies := m.replies + o.replies)
  }

  function OnMessage(m: Mux, p: U16, msg: Option<Bytes>): Mux {
    if p in m.table then OnOutcome(m, p, ClientMessage(m.writer, m.table[p], msg)) else m
  }

  function OnDrain(m: Mux, p: U16, n: U32): Mux {
    if p in m.table then OnOutcome(m, p, DrainReport(m.writer, m.table[p], n)) else m
  }

  function OnSegment(m: Mux, s: Seg, userAlive: bool): Mux {
    if s.dst in m.table then OnOutcome(m, s.dst, Segment(m.writer, m.table[s.dst], s, userAlive))
    else if Stranger(s) == [] then m
    else m.(writer := SendWriter(m.writer, []), segs := m.segs + if SendOk(m.writer, []) then Stranger(s) else [])
  }

  function DeliveredBy(m: Mux, s: Seg, userAlive: bool): seq<Bytes> {
    if s.dst in m.table then Segment(m.writer, m.table[s.dst], s, userAlive).deliver else []
  }

  function ResetEntry(m: Mux, p: U16): Mux {
    if p in m.table then OnOutcome(m, p, ResetAndRemove(m.writer, [], m.table[p], ShutDown)) else m
  }

  /** Shutdown visits the entries in the order `order` in which the table yields its keys. */
  function OnShutdown(m: Mux, order: seq<U16>): Mux
    decreases |order|
  {
    if order == [] then m else OnShutdown(ResetEntry(m, order[0]), order[1..])
  }

  lemma {:induction false} ShutdownSnoc(m: Mux, order: seq<U16>, p: U16)
    ensures OnShutdown(m, order + [p]) == ResetEntry(OnShutdown(m, order), p)
    decreases |order|
  {
    if order == [] {
      assert order + [p] == [p];
    } else {
      assert (order + [p])[1..] == order[1..] + [p];
      ShutdownSnoc(ResetEntry(m, order[0]), order[1..], p);
    }
  }
}
