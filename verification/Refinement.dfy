/** The runs of `System`, on which the theorems are stated, and the transitions of `MuxSpec`, which
    the classes of `MuxTask` are shown to take, are the same machine: forgetting the pumps, the
    forwarders and the histories turns every step of the one into the step of the other. */
module Refinement {
  import opened Prelude
  import opened Codec
  import opened ConnSpec
  import opened System
  import Lane
  import MuxSpec

  function SegsOf(wire: seq<Wire>): seq<Seg> {
    if wire == [] then [] else [wire[0].seg] + SegsOf(wire[1..])
  }

  function TableOf(s: Sys): map<U16, Conn> {
    map p | p in s.lanes && s.lanes[p].inTable :: s.lanes[p].conn
  }

  function MuxOf(s: Sys): MuxSpec.Mux {
    MuxSpec.Mux(TableOf(s), s.nextPort, s.connects, s.writer, SegsOf(s.wire), s.replies)
  }

  lemma {:induction false} SegsOfAppend(a: seq<Wire>, b: seq<Wire>)
    ensures SegsOf(a + b) == SegsOf(a) + SegsOf(b)
  {
    if a == [] {
      assert a + b == b;
    } else {
      assert (a + b)[1..] == a[1..] + b;
      SegsOfAppend(a[1..], b);
    }
  }

  lemma {:induction false} SegsOfOwned(id: nat, segs: seq<Seg>)
    ensures SegsOf(Owned(id, segs)) == segs
  {
    if segs != [] {
      SegsOfOwned(id, segs[1..]);
      assert Owned(id, segs)[1..] == Owned(id, segs[1..]);
    }
  }

  lemma CommitRefines(s: Sys, p: U16, l: Lane.Lane, o: Outcome)
    requires l.conn == o.conn && l.inTable == o.fate.Stay?
    ensures MuxOf(Commit(s, p, l, o)) == MuxSpec.OnOutcome(MuxOf(s), p, o)
  {
    SegsOfAppend(s.wire, Owned(l.conn.id, o.segs));
    SegsOfOwned(l.conn.id, o.segs);
    assert TableOf(Commit(s, p, l, o)) == MuxSpec.Put(TableOf(s), p, o);
  }

  lemma ConnectRefines(s: Sys, dport: U16)
    ensures MuxOf(OpenNext(s, dport)) == MuxSpec.OnConnect(MuxOf(s), dport)
  {
    var o := Opened(s.writer, s.connects, s.nextPort, dport);
    var s1 := s.(nextPort := NextPort(s.nextPort), connects := s.connects + 1);
    assert MuxOf(s1) == MuxOf(s).(nextPort := s1.nextPort, connects := s1.connects);
    if o.fate.Stay? {
      CommitRefines(s1, s.nextPort, Lane.Born(o), o);
    } else {
      assert TableOf(OpenNext(s, dport)) == TableOf(s);
    }
  }

  lemma MessageRefines(s: Sys)
    requires s.hand.Some?
    ensures MuxOf(ProcessMessage(s)) == MuxSpec.OnMessage(MuxOf(s), s.hand.value.0, s.hand.value.1)
  {
    var (p, msg) := s.hand.value;
    var s1 := s.(hand := None);
    assert MuxOf(s1) == MuxOf(s);
    if InTable(s, p) {
      CommitRefines(s1, p, Lane.OnMessage(s.lanes[p], s.writer, msg), ClientMessage(s.writer, s.lanes[p].conn, msg));
    }
  }

  lemma DrainRefines(s: Sys)
    requires s.drainQ != []
    ensures MuxOf(ProcessDrain(s)) == MuxSpec.OnDrain(MuxOf(s), s.drainQ[0].0, s.drainQ[0].1)
  {
    var (p, n) := s.drainQ[0];
    var s1 := s.(drainQ := s.drainQ[1..]);
    assert MuxOf(s1) == MuxOf(s);
    if InTable(s, p) {
      CommitRefines(s1, p, Lane.OnDrain(s.lanes[p], s.writer, n), DrainReport(s.writer, s.lanes[p].conn, n));
    }
  }

  /** Whether the connection on port `p` still has a forwarder that receives. */
  predicate UserAlive(s: Sys, p: U16) {
    p in s.lanes && Lane.FwdAlive(s.lanes[p])
  }

  lemma KnownRefines(s: Sys, seg: Seg)
    requires InTable(s, seg.dst)
    ensures MuxOf(ProcessPacket(s, seg)) == MuxSpec.OnSegment(MuxOf(s), seg, UserAlive(s, seg.dst))
  {
    var p := seg.dst;
    var o := Segment(s.writer, s.lanes[p].conn, seg, Lane.FwdAlive(s.lanes[p]));
    CommitRefines(s, p, Lane.OnSegment(s.lanes[p], s.writer, seg), o);
  }

  lemma StrangerRefines(s: Sys, seg: Seg)
    requires !InTable(s, seg.dst)
    ensures MuxOf(ProcessPacket(s, seg)) == MuxSpec.OnSegment(MuxOf(s), seg, UserAlive(s, seg.dst))
  {
    var s' := ProcessPacket(s, seg);
    assert TableOf(s') == TableOf(s);
    if Stranger(seg) != [] && SendOk(s.writer, []) {
      var reply := Wire(None, Stranger(seg)[0]);
      SegsOfAppend(s.wire, [reply]);
      assert SegsOf([reply]) == Stranger(seg);
    } else {
      assert s.wire + [] == s.wire && SegsOf(s.wire) + [] == SegsOf(s.wire);
    }
  }

  lemma {:induction false} ShutdownRefines(s: Sys, order: seq<U16>)
    ensures MuxOf(ShutDownAll(s, order)) == MuxSpec.OnShutdown(MuxOf(s), order)
    decreases |order|
  {
    if order == [] {
      assert TableOf(ShutDownAll(s, order)) == TableOf(s);
    } else {
      var p := order[0];
      if InTable(s, p) {
        var o := ResetAndRemove(s.writer, [], s.lanes[p].conn, ShutDown);
        var l := Lane.OnShutdown(s.lanes[p], s.writer);
        CommitRefines(s, p, l, o);
        ShutdownRefines(Commit(s, p, l, o), order[1..]);
      } else {
        ShutdownRefines(s, order[1..]);
      }
    }
  }

  /** The steps of a pump or a forwarder touch nothing of the mux task's but a stored permit. */
  predicate SameButPermits(m: MuxSpec.Mux, m': MuxSpec.Mux) {
    && m'.(table := m.table) == m
    && m'.table.Keys == m.table.Keys
    && forall p :: p in m.table ==> OnlyPermit(m.table[p], m'.table[p])
  }

  predicate OnlyPermit(c: Conn, c': Conn) {
    c' == c.(resumePermit := c'.resumePermit)
  }

  lemma LocalLane(l: Lane.Lane, step: Lane.Local)
    requires Lane.Enabled(l, step)
    ensures Lane.Do(l, step).inTable == l.inTable && OnlyPermit(l.conn, Lane.Do(l, step).conn)
  {
    match step {
      case PumpWakes =>
      case _ => assert Lane.Do(l, step).conn == l.conn;
    }
  }

  lemma PutRefines(s: Sys, s': Sys, p: U16, l: Lane.Lane)
    requires p in s.lanes && l.inTable == s.lanes[p].inTable && OnlyPermit(s.lanes[p].conn, l.conn)
    requires s'.lanes == s.lanes[p := l] && s'.writer == s.writer && s'.wire == s.wire && s'.replies == s.replies
    requires s'.nextPort == s.nextPort && s'.connects == s.connects
    ensures SameButPermits(MuxOf(s), MuxOf(s'))
  {
  }

  lemma LocalRefines(s: Sys, p: U16, step: Lane.Local)
    requires Can(s, At(p, step))
    ensures SameButPermits(MuxOf(s), MuxOf(Next(s, At(p, step))))
  {
    LocalLane(s.lanes[p], step);
    PutRefines(s, Next(s, At(p, step)), p, Lane.Do(s.lanes[p], step));
  }

  /** The transition of `MuxSpec` that event `e` stands for in state `s`. */
  predicate Takes(s: Sys, e: Event, m: MuxSpec.Mux, m': MuxSpec.Mux) {
    match e
    case Connect(dport) => m' == MuxSpec.OnConnect(m, dport)
    case Process => s.hand.Some? && m' == MuxSpec.OnMessage(m, s.hand.value.0, s.hand.value.1)
    case Drain => s.drainQ != [] && m' == MuxSpec.OnDrain(m, s.drainQ[0].0, s.drainQ[0].1)
    case Packet(seg) => m' == MuxSpec.OnSegment(m, seg, UserAlive(s, seg.dst))
    case Shutdown(order) => m' == MuxSpec.OnShutdown(m, order)
    case _ => SameButPermits(m, m')
  }

  /** Every event of every run is a transition of the mux task. */
  lemma StepRefines(s: Sys, e: Event)
    requires Can(s, e)
    ensures Takes(s, e, MuxOf(s), MuxOf(Next(s, e)))
  {
    match e
    case Connect(dport) => ConnectRefines(s, dport);
    case Process => MessageRefines(s);
    case Drain => DrainRefines(s);
    case Packet(seg) => if InTable(s, seg.dst) { KnownRefines(s, seg); } else { StrangerRefines(s, seg); }
    case Shutdown(order) => ShutdownRefines(s, order);
    case Take =>
    case At(p, step) => LocalRefines(s, p, step);
    case PumpSends(p) => PutRefines(s, Next(s, e), p, Lane.PumpSent(s.lanes[p], s.running));
    case ForwarderWrites(p) => PutRefines(s, Next(s, e), p, Lane.ForwarderWrote(s.lanes[p], s.running));
  }

  /** What a segment delivers is what joins the delivery channel. */
  lemma DeliveryRefines(s: Sys, seg: Seg)
    requires Can(s, Packet(seg)) && InTable(s, seg.dst)
    ensures Next(s, Packet(seg)).lanes[seg.dst].rxQ
            == s.lanes[seg.dst].rxQ + MuxSpec.DeliveredBy(MuxOf(s), seg, UserAlive(s, seg.dst))
  {
    var o := Segment(s.writer, s.lanes[seg.dst].conn, seg, UserAlive(s, seg.dst));
    assert MuxSpec.DeliveredBy(MuxOf(s), seg, UserAlive(s, seg.dst)) == o.deliver;
  }
}
