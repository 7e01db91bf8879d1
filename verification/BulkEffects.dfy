/** What one poll of a bulk adapter does, by what the endpoint answers. */
module BulkEffects {
  import opened Prelude
  import opened BulkSpec
  import BulkIo

  // ---- out -------------------------------------------------------------------------------

  /** Nothing is in flight, or what is completes well right now. */
  predicate Free(w: OutState) {
    !w.inFlight || (w.script != [] && w.script[0] == Completed(true))
  }

  /** What is in flight completes with an error right now. */
  predicate Fails(w: OutState) {
    w.inFlight && w.script != [] && w.script[0] == Completed(false)
  }

  /** One answer less, if there was something to ask about. */
  function Asked(w: OutState): seq<OutAnswer> {
    if w.inFlight && w.script != [] then w.script[1..] else w.script
  }

  /** A write is accepted exactly when the endpoint is free, and then as one transfer of at most
      `maxOut` bytes, the only one in flight; an empty one submits nothing. It is refused exactly when
      the transfer before it turns out to have failed, and waits otherwise. */
  lemma WritePollCases(w: OutState, buf: Bytes)
    requires Sane(w)
    ensures var (w', p) := PollWrite(w, buf);
            var n := if |buf| <= w.maxOut then |buf| else w.maxOut;
            && w'.script == Asked(w)
            && if Free(w) then
                 && p == Accepted(n) && w'.inFlight == (buf != [])
                 && w'.submitted == w.submitted + (if buf == [] then [] else [buf[..n]])
                 && w'.bytesSinceFlush == w.bytesSinceFlush + n && (buf != [] ==> !w'.zlpSent)
               else
                 && p == (if Fails(w) then Broken else Blocked) && w'.submitted == w.submitted
                 && w'.inFlight == !Fails(w) && w'.bytesSinceFlush == w.bytesSinceFlush && w'.zlpSent == w.zlpSent
  {
    assert w.submitted + [] == w.submitted;
  }

  /** A flush is done exactly when everything is out and completed: at once if the endpoint is free and
      no zero-length packet is owed, and otherwise once that packet, sent when the endpoint is free, has
      completed too. It fails exactly when one of the two turns out to have failed. */
  lemma FlushPollCases(w: OutState)
    requires Sane(w)
    ensures var (w', p) := PollFlush(w);
            var owes := !w.zlpSent && 0 < w.bytesSinceFlush && w.bytesSinceFlush % w.mps == 0;
            if !Free(w) then
              p == (if Fails(w) then Failed else Pending) && w'.submitted == w.submitted && w'.inFlight == !Fails(w)
            else if !owes then
              p == Done && w'.submitted == w.submitted && !w'.inFlight && w'.bytesSinceFlush == 0
            else
              var rest := Asked(w);
              && w'.submitted == w.submitted + [[]] && w'.zlpSent
              && p == (if rest == [] || rest[0].NotYet? then Pending else if rest[0].ok then Done else Failed)
              && w'.inFlight == p.Pending? && (p.Done? ==> w'.bytesSinceFlush == 0)
  {
    if Free(w) && OwesZlp(w) {
      var w1 := PollDrain(w).0;
      var w2 := Submit(w1, []).(zlpSent := true);
      assert PollFlush(w) == PollFlush(w2);
      assert !OwesZlp(PollDrain(w2).0);
    }
  }

  /** A frame of up to 65536 bytes is one transfer, closed by a zero-length one if it fills its last
      packet; a longer one starts with a transfer of 65536 bytes. */
  lemma FrameIsOneTransfer(mps: nat, f: Bytes)
    requires 0 < mps && f != []
    ensures var ts := TransfersOf(mps, BulkIo.DEFAULT_MAX_OUT, f);
            && (|f| <= 65536 ==> ts == [f] + if |f| % mps == 0 then [[]] else [])
            && (65536 < |f| ==> ts != [] && ts[0] == f[..65536])
  {
    if |f| <= 65536 {
      assert f[..|f|] == f && f[|f|..] == [];
      assert Chunks(BulkIo.DEFAULT_MAX_OUT, f) == [f] + Chunks(BulkIo.DEFAULT_MAX_OUT, []);
    }
  }

  // ---- in --------------------------------------------------------------------------------

  /** A read hands out what is left of the last transfer, as much as there is room for; if nothing is,
      the next answer decides: wait, an error, an empty completion that is passed over, or a transfer
      whose rest is kept. */
  lemma ReadPollCases(r: InState, cap: nat)
    requires Ready(r)
    ensures var (r', p) := PollRead(r, cap);
            if r.drain.Some? then
              var left := Remainder(r);
              var n := if |left| <= cap then |left| else cap;
              p == Got(left[..n]) && r'.script == r.script && Remainder(r') == left[n..]
            else if r.script == [] then p == Stalled && r' == r
            else
              match r.script[0]
              case Wait => p == Stalled && r' == r.(script := r.script[1..])
              case Error => p == Lost && r' == r.(script := r.script[1..])
              case Received(b, len) =>
                if len == 0 then PollRead(r, cap) == PollRead(r.(script := r.script[1..]), cap)
                else
                  var n := if len <= cap then len else cap;
                  p == Got(b[..n]) && r'.script == r.script[1..] && Remainder(r') == b[n..len]
  {
    if r.drain.Some? {
      LeftOver(r, cap);
    } else if r.script != [] && r.script[0].Received? && 0 < r.script[0].len {
      DeliverConserves(r.(script := r.script[1..]), r.script[0].buffer, r.script[0].len, cap);
    }
  }

  lemma LeftOver(r: InState, cap: nat)
    requires Ready(r) && r.drain.Some?
    ensures var (r', p) := PollRead(r, cap);
            var left := Remainder(r);
            var n := if |left| <= cap then |left| else cap;
            p == Got(left[..n]) && r'.script == r.script && Ready(r') && Remainder(r') == left[n..]
  {
    var d := r.drain.value;
    var n := Min(d.end - d.off, cap);
    Drained(r, cap);
    assert d.buffer[d.off..d.end][..n] == d.buffer[d.off..d.off + n];
    assert d.buffer[d.off..d.end][n..] == d.buffer[d.off + n..d.end];
  }
}
