/** The bulk adapters of src/usb/bulk_io.rs as functions of their fields and of what the endpoint
    will answer, and what their polls add up to: frame boundaries on the way out (section 5.8.3 of
    USB 2.0), a byte stream on the way in. */
module BulkSpec {
  import opened Prelude

  // ---- arithmetic ------------------------------------------------------------------------

  lemma MulMono(m: nat, a: int, b: int)
    requires a <= b
    ensures m * a <= m * b
  {
  }

  lemma DivUnique(a: nat, m: nat, q: int, r: nat)
    requires 0 < m && r < m && a == m * q + r
    ensures a % m == r
  {
    var q' := a / m;
    if q < q' {
      MulMono(m, q + 1, q');
    } else if q' < q {
      MulMono(m, q' + 1, q);
    }
  }

  lemma ModSub(n: nat, k: nat, m: nat)
    requires 0 < m && k <= n && k % m == 0
    ensures (n - k) % m == n % m
  {
    assert n - k == m * (n / m - k / m) + n % m;
    DivUnique(n - k, m, n / m - k / m, n % m);
  }

  // ---- the writer ------------------------------------------------------------------------

  /** One answer of the endpoint to a poll for the next completion. A poll after the last answer
      is pending for good. */
  datatype OutAnswer = NotYet | Completed(ok: bool)

  datatype OutState = OutState(
    mps: nat,
    maxOut: nat,
    script: seq<OutAnswer>,
    submitted: seq<Bytes>,
    inFlight: bool,
    bytesSinceFlush: nat,
    zlpSent: bool)

  predicate Sane(w: OutState) {
    0 < w.mps && 0 < w.maxOut
  }

  datatype FlushPoll = Pending | Failed | Done

  datatype WritePoll = Blocked | Broken | Accepted(n: nat)

  function PollDrain(w: OutState): (OutState, FlushPoll) {
    if !w.inFlight then (w, Done)
    else if w.script == [] then (w, Pending)
    else
      var w1 := w.(script := w.script[1..]);
      match w.script[0]
      case NotYet => (w1, Pending)
      case Completed(ok) => (w1.(inFlight := false), if ok then Done else Failed)
  }

  function Submit(w: OutState, transfer: Bytes): OutState {
    w.(submitted := w.submitted + [transfer], inFlight := true)
  }

  function PollWrite(w: OutState, buf: Bytes): (OutState, WritePoll)
    requires Sane(w)
  {
    var (w1, d) := PollDrain(w);
    if d.Pending? then (w1, Blocked)
    else if d.Failed? then (w1, Broken)
    else if buf == [] then (w1, Accepted(0))
    else
      var n := Min(|buf|, w.maxOut);
      (Submit(w1, buf[..n]).(bytesSinceFlush := w1.bytesSinceFlush + n, zlpSent := false), Accepted(n))
  }

  /** What has been written since the last completed flush ends on a packet boundary and no
      zero-length packet has yet said so. */
  predicate OwesZlp(w: OutState)
    requires Sane(w)
  {
    !w.zlpSent && 0 < w.bytesSinceFlush && w.bytesSinceFlush % w.mps == 0
  }

  function PollFlush(w: OutState): (r: (OutState, FlushPoll))
    requires Sane(w)
    ensures r.0.mps == w.mps && r.0.maxOut == w.maxOut
    decreases !w.zlpSent
  {
    var (w1, d) := PollDrain(w);
    if !d.Done? then (w1, d)
    else if OwesZlp(w1) then PollFlush(Submit(w1, []).(zlpSent := true))
    else (w1.(bytesSinceFlush := 0), Done)
  }

  /** The transfers there will be once a flush has gone through. */
  function Settled(w: OutState): seq<Bytes>
    requires Sane(w)
  {
    w.submitted + if OwesZlp(w) then [[]] else []
  }

  function FlushPolls(w: OutState, n: nat): OutState
    requires Sane(w)
    decreases n
  {
    if n == 0 then w else FlushPolls(PollFlush(w).0, n - 1)
  }

  /** A flush poll, whatever it returns, changes nothing about the transfers there will be; once
      it is done they all have been submitted and completed. */
  lemma {:induction false} FlushSettles(w: OutState)
    requires Sane(w)
    ensures var (w', d) := PollFlush(w);
            && |w'.script| <= |w.script|
            && Settled(w') == Settled(w)
            && w.submitted <= w'.submitted
            && (d.Done? ==> w'.submitted == Settled(w) && w'.bytesSinceFlush == 0 && !w'.inFlight)
            && (d.Pending? ==> w'.script == [] || |w'.script| < |w.script|)
    decreases !w.zlpSent
  {
    var (w1, d) := PollDrain(w);
    if d.Done? && OwesZlp(w1) {
      var w2 := Submit(w1, []).(zlpSent := true);
      FlushSettles(w2);
      assert w1.submitted + [[]] + [] == w1.submitted + [[]];
    }
  }

  /** Polling a flush again and again, also after it is done, sends at most the one zero-length
      packet that was owed. */
  lemma {:induction false} RepeatedFlush(w: OutState, n: nat)
    requires Sane(w)
    ensures var w' := FlushPolls(w, n);
            && Sane(w')
            && Settled(w') == Settled(w)
            && (w'.submitted == w.submitted || (OwesZlp(w) && w'.submitted == w.submitted + [[]]))
    decreases n
  {
    if n > 0 {
      FlushSettles(w);
      var w1 := PollFlush(w).0;
      RepeatedFlush(w1, n - 1);
      var w' := FlushPolls(w1, n - 1);
      assert w.submitted <= w1.submitted <= w'.submitted <= Settled(w);
      assert |w'.submitted| == |w.submitted| || w'.submitted == Settled(w);
    }
  }

  // ---- what the device sees --------------------------------------------------------------

  /** The packets of one transfer: full ones and a last one of at most the packet size. */
  function Packets(mps: nat, t: Bytes): seq<Bytes>
    requires 0 < mps
    decreases |t|
  {
    if |t| <= mps then [t] else [t[..mps]] + Packets(mps, t[mps..])
  }

  function PacketsOf(mps: nat, transfers: seq<Bytes>): seq<Bytes>
    requires 0 < mps
  {
    if transfers == [] then [] else Packets(mps, transfers[0]) + PacketsOf(mps, transfers[1..])
  }

  /** Cut the packet stream after every short or zero-length packet; `acc` is what has been
      received since the last cut. */
  function Cut(mps: nat, acc: Bytes, packets: seq<Bytes>): seq<Bytes>
    decreases |packets|
  {
    if packets == [] then []
    else if |packets[0]| < mps then [acc + packets[0]] + Cut(mps, [], packets[1..])
    else Cut(mps, acc + packets[0], packets[1..])
  }

  /** What is left after the last cut. */
  function Residue(mps: nat, acc: Bytes, packets: seq<Bytes>): Bytes
    decreases |packets|
  {
    if packets == [] then acc
    else if |packets[0]| < mps then Residue(mps, [], packets[1..])
    else Residue(mps, acc + packets[0], packets[1..])
  }

  lemma {:induction false} CutAppend(mps: nat, acc: Bytes, a: seq<Bytes>, b: seq<Bytes>)
    ensures Cut(mps, acc, a + b) == Cut(mps, acc, a) + Cut(mps, Residue(mps, acc, a), b)
    ensures Residue(mps, acc, a + b) == Residue(mps, Residue(mps, acc, a), b)
    decreases |a|
  {
    if a == [] {
      assert a + b == b;
    } else {
      assert (a + b)[1..] == a[1..] + b;
      CutAppend(mps, if |a[0]| < mps then [] else acc + a[0], a[1..], b);
    }
  }

  lemma {:induction false} CutLosesNothing(mps: nat, acc: Bytes, ps: seq<Bytes>)
    ensures Flatten(Cut(mps, acc, ps)) + Residue(mps, acc, ps) == acc + Flatten(ps)
    ensures Cut(mps, acc, ps) != [] ==> acc <= Cut(mps, acc, ps)[0]
    ensures Cut(mps, acc, ps) == [] ==> acc <= Residue(mps, acc, ps)
    decreases |ps|
  {
    if ps != [] {
      var rest := ps[1..];
      if |ps[0]| < mps {
        CutLosesNothing(mps, [], rest);
        var tail := Cut(mps, [], rest);
        assert Cut(mps, acc, ps)[1..] == tail;
        assert Flatten(Cut(mps, acc, ps)) + Residue(mps, acc, ps)
            == acc + (ps[0] + (Flatten(tail) + Residue(mps, [], rest)));
      } else {
        CutLosesNothing(mps, acc + ps[0], rest);
        assert acc + ps[0] + Flatten(rest) == acc + Flatten(ps);
      }
    }
  }

  lemma {:induction false} PacketsOfAppend(mps: nat, a: seq<Bytes>, b: seq<Bytes>)
    requires 0 < mps
    ensures PacketsOf(mps, a + b) == PacketsOf(mps, a) + PacketsOf(mps, b)
  {
    if a == [] {
      assert a + b == b;
    } else {
      assert (a + b)[1..] == a[1..] + b;
      PacketsOfAppend(mps, a[1..], b);
    }
  }

  lemma {:induction false} PacketsHoldTransfer(mps: nat, t: Bytes)
    requires 0 < mps
    ensures Flatten(Packets(mps, t)) == t
    decreases |t|
  {
    if |t| <= mps {
      assert Flatten([t]) == t + Flatten([]);
    } else {
      PacketsHoldTransfer(mps, t[mps..]);
      assert Packets(mps, t)[1..] == Packets(mps, t[mps..]);
    }
  }

  lemma {:induction false} PacketsHoldAll(mps: nat, ts: seq<Bytes>)
    requires 0 < mps
    ensures Flatten(PacketsOf(mps, ts)) == Flatten(ts)
  {
    if ts != [] {
      PacketsHoldTransfer(mps, ts[0]);
      PacketsHoldAll(mps, ts[1..]);
      FlattenAppend(Packets(mps, ts[0]), PacketsOf(mps, ts[1..]));
    }
  }

  predicate EndsFull(mps: nat, t: Bytes)
    requires 0 < mps
  {
    t != [] && |t| % mps == 0
  }

  lemma EndsFullAt(mps: nat, t: Bytes)
    requires 0 < mps
    ensures |t| <= mps ==> (EndsFull(mps, t) <==> |t| == mps)
    ensures mps < |t| ==> (EndsFull(mps, t) <==> EndsFull(mps, t[mps..]))
  {
    if mps < |t| {
      ModSub(|t|, mps, mps);
    } else if |t| < mps {
      DivUnique(|t|, mps, 0, |t|);
    }
  }

  /** A transfer that ends on a full packet runs on into the next; any other one ends here. */
  lemma {:induction false} CutTransfer(mps: nat, acc: Bytes, t: Bytes, rest: seq<Bytes>)
    requires 0 < mps
    ensures Cut(mps, acc, Packets(mps, t) + rest)
            == if EndsFull(mps, t) then Cut(mps, acc + t, rest) else [acc + t] + Cut(mps, [], rest)
    decreases |t|
  {
    var ps := Packets(mps, t) + rest;
    EndsFullAt(mps, t);
    assert ps[1..] == Packets(mps, t)[1..] + rest;
    if |t| <= mps {
      assert ps[1..] == rest;
    } else {
      var head, tail := t[..mps], t[mps..];
      assert Packets(mps, t)[1..] == Packets(mps, tail);
      CutTransfer(mps, acc + head, tail, rest);
      assert acc + head + tail == acc + t;
    }
  }

  // ---- frames ----------------------------------------------------------------------------

  /** The submissions of write_all for `b`. */
  function Chunks(maxOut: nat, b: Bytes): seq<Bytes>
    requires 0 < maxOut
    decreases |b|
  {
    if b == [] then [] else [b[..Min(|b|, maxOut)]] + Chunks(maxOut, b[Min(|b|, maxOut)..])
  }

  /** A frame written with write_all and then flushed. */
  function TransfersOf(mps: nat, maxOut: nat, f: Bytes): seq<Bytes>
    requires 0 < mps && 0 < maxOut
  {
    Chunks(maxOut, f) + if EndsFull(mps, f) then [[]] else []
  }

  function AllTransfers(mps: nat, maxOut: nat, frames: seq<Bytes>): seq<Bytes>
    requires 0 < mps && 0 < maxOut
  {
    if frames == [] then [] else TransfersOf(mps, maxOut, frames[0]) + AllTransfers(mps, maxOut, frames[1..])
  }

  /** A frame goes out in one submission, or in submissions of whole packets. */
  predicate Splits(mps: nat, maxOut: nat, f: Bytes)
    requires 0 < mps && 0 < maxOut
  {
    maxOut < |f| && maxOut % mps != 0
  }

  predicate NoneSplits(mps: nat, maxOut: nat, frames: seq<Bytes>)
    requires 0 < mps && 0 < maxOut
  {
    forall i :: 0 <= i < |frames| ==> !Splits(mps, maxOut, frames[i])
  }

  predicate Nonempty(frames: seq<Bytes>) {
    forall i :: 0 <= i < |frames| ==> frames[i] != []
  }

  lemma {:induction false} CutChunks(mps: nat, maxOut: nat, acc: Bytes, f: Bytes, rest: seq<Bytes>)
    requires 0 < mps && 0 < maxOut && f != [] && !Splits(mps, maxOut, f)
    ensures Cut(mps, acc, PacketsOf(mps, Chunks(maxOut, f)) + rest)
            == if EndsFull(mps, f) then Cut(mps, acc + f, rest) else [acc + f] + Cut(mps, [], rest)
    decreases |f|
  {
    var n := Min(|f|, maxOut);
    var head, tail := f[..n], f[n..];
    var more := PacketsOf(mps, Chunks(maxOut, tail));
    assert Chunks(maxOut, f)[1..] == Chunks(maxOut, tail);
    assert PacketsOf(mps, Chunks(maxOut, f)) + rest == Packets(mps, head) + (more + rest);
    CutTransfer(mps, acc, head, more + rest);
    if tail == [] {
      assert more + rest == rest && head == f;
    } else {
      ModSub(|f|, n, mps);
      CutChunks(mps, maxOut, acc + head, tail, rest);
      assert acc + head + tail == acc + f;
    }
  }

  lemma CutFrame(mps: nat, maxOut: nat, f: Bytes, rest: seq<Bytes>)
    requires 0 < mps && 0 < maxOut && f != [] && !Splits(mps, maxOut, f)
    ensures Cut(mps, [], PacketsOf(mps, TransfersOf(mps, maxOut, f)) + rest) == [f] + Cut(mps, [], rest)
  {
    var zlp: seq<Bytes> := if EndsFull(mps, f) then [[]] else [];
    PacketsOfAppend(mps, Chunks(maxOut, f), zlp);
    var body := PacketsOf(mps, Chunks(maxOut, f));
    assert body + PacketsOf(mps, zlp) + rest == body + (PacketsOf(mps, zlp) + rest);
    CutChunks(mps, maxOut, [], f, PacketsOf(mps, zlp) + rest);
    assert [] + f == f;
    if EndsFull(mps, f) {
      assert PacketsOf(mps, zlp) == Packets(mps, []) + PacketsOf(mps, []);
      CutTransfer(mps, f, [], rest);
      assert f + [] == f;
    } else {
      assert PacketsOf(mps, zlp) + rest == rest;
    }
  }

  /** A frame that splits is cut short after its first submission. */
  lemma SplitFrame(mps: nat, maxOut: nat, f: Bytes, rest: seq<Bytes>)
    requires 0 < mps && 0 < maxOut && Splits(mps, maxOut, f)
    ensures var cut := Cut(mps, [], PacketsOf(mps, TransfersOf(mps, maxOut, f)) + rest);
            cut != [] && cut[0] == f[..maxOut]
  {
    var ts := TransfersOf(mps, maxOut, f);
    assert ts[0] == f[..maxOut];
    assert PacketsOf(mps, ts) + rest == Packets(mps, ts[0]) + (PacketsOf(mps, ts[1..]) + rest);
    CutTransfer(mps, [], ts[0], PacketsOf(mps, ts[1..]) + rest);
    assert [] + ts[0] == ts[0];
  }

  /** One frame, one transfer: written frame by frame, each with write_all and flush, the packet
      stream falls apart into exactly the frames if and only if every frame fits one submission or
      submissions hold whole packets. */
  lemma {:induction false} CutsAtFrames(mps: nat, maxOut: nat, frames: seq<Bytes>)
    requires 0 < mps && 0 < maxOut && Nonempty(frames)
    ensures Cut(mps, [], PacketsOf(mps, AllTransfers(mps, maxOut, frames))) == frames
            <==> NoneSplits(mps, maxOut, frames)
  {
    if frames != [] {
      var f, rest := frames[0], AllTransfers(mps, maxOut, frames[1..]);
      PacketsOfAppend(mps, TransfersOf(mps, maxOut, f), rest);
      CutsAtFrames(mps, maxOut, frames[1..]);
      if Splits(mps, maxOut, f) {
        SplitFrame(mps, maxOut, f, PacketsOf(mps, rest));
        assert |f[..maxOut]| < |f|;
      } else {
        CutFrame(mps, maxOut, f, PacketsOf(mps, rest));
        SameTail(f, Cut(mps, [], PacketsOf(mps, rest)), frames);
        assert NoneSplits(mps, maxOut, frames) <==> NoneSplits(mps, maxOut, frames[1..]) by {
          assert frames == [f] + frames[1..];
        }
      }
    }
  }

  lemma SameTail(f: Bytes, rest: seq<Bytes>, frames: seq<Bytes>)
    requires frames != [] && frames[0] == f
    ensures [f] + rest == frames <==> rest == frames[1..]
  {
    assert ([f] + rest)[1..] == rest && frames == [f] + frames[1..];
  }

  lemma {:induction false} ChunksHold(maxOut: nat, b: Bytes)
    requires 0 < maxOut
    ensures Flatten(Chunks(maxOut, b)) == b
    decreases |b|
  {
    if b != [] {
      var n := Min(|b|, maxOut);
      var head, rest := b[..n], Chunks(maxOut, b[n..]);
      ChunksHold(maxOut, b[n..]);
      assert Chunks(maxOut, b) == [head] + rest && ([head] + rest)[1..] == rest;
      assert head + b[n..] == b;
    }
  }

  lemma {:induction false} AllTransfersAppend(mps: nat, maxOut: nat, a: seq<Bytes>, b: seq<Bytes>)
    requires 0 < mps && 0 < maxOut
    ensures AllTransfers(mps, maxOut, a + b) == AllTransfers(mps, maxOut, a) + AllTransfers(mps, maxOut, b)
  {
    if a == [] {
      assert a + b == b;
    } else {
      assert (a + b)[1..] == a[1..] + b;
      AllTransfersAppend(mps, maxOut, a[1..], b);
    }
  }

  lemma TransfersHoldFrame(mps: nat, maxOut: nat, f: Bytes)
    requires 0 < mps && 0 < maxOut
    ensures Flatten(TransfersOf(mps, maxOut, f)) == f
  {
    ChunksHold(maxOut, f);
    FlattenSnoc(Chunks(maxOut, f), []);
    assert Chunks(maxOut, f) + [] == Chunks(maxOut, f) && f + [] == f;
  }

  lemma {:induction false} TransfersHold(mps: nat, maxOut: nat, frames: seq<Bytes>)
    requires 0 < mps && 0 < maxOut
    ensures Flatten(AllTransfers(mps, maxOut, frames)) == Flatten(frames)
  {
    if frames != [] {
      TransfersHoldFrame(mps, maxOut, frames[0]);
      TransfersHold(mps, maxOut, frames[1..]);
      FlattenAppend(TransfersOf(mps, maxOut, frames[0]), AllTransfers(mps, maxOut, frames[1..]));
    }
  }

  /** Wherever the writer is stopped, what the device has cut off are whole frames, in order, and
      what it still holds is the beginning of the next one. */
  lemma StopsBetweenFrames(mps: nat, maxOut: nat, frames: seq<Bytes>, ts: seq<Bytes>)
    requires 0 < mps && 0 < maxOut && Nonempty(frames) && NoneSplits(mps, maxOut, frames)
    requires ts <= AllTransfers(mps, maxOut, frames)
    ensures var cut, held := Cut(mps, [], PacketsOf(mps, ts)), Residue(mps, [], PacketsOf(mps, ts));
            && cut <= frames
            && (held == [] || (|cut| < |frames| && held <= frames[|cut|]))
  {
    var all := AllTransfers(mps, maxOut, frames);
    var rest := all[|ts|..];
    var before, after := PacketsOf(mps, ts), PacketsOf(mps, rest);
    var cut, held := Cut(mps, [], before), Residue(mps, [], before);
    assert all == ts + rest;
    PacketsOfAppend(mps, ts, rest);
    CutAppend(mps, [], before, after);
    CutsAtFrames(mps, maxOut, frames);
    CutLosesNothing(mps, held, after);
    CutLosesNothing(mps, [], before + after);
    PacketsHoldAll(mps, all);
    TransfersHold(mps, maxOut, frames);
    var next := Cut(mps, held, after);
    assert frames == cut + next;
    assert |Residue(mps, [], before + after)| == 0;
    if next != [] {
      assert frames[|cut|] == next[0];
    }
  }

  // ---- the reader ------------------------------------------------------------------------

  /** One answer of the endpoint: a completed transfer fills the first `len` bytes of its buffer. */
  datatype InAnswer = Wait | Received(buffer: Bytes, len: nat) | Error

  datatype Drain = Drain(buffer: Bytes, off: nat, end: nat)

  datatype InState = InState(script: seq<InAnswer>, drain: Option<Drain>)

  datatype ReadPoll = Stalled | Lost | Got(bytes: Bytes)

  predicate Plausible(script: seq<InAnswer>) {
    forall a :: a in script && a.Received? ==> a.len <= |a.buffer|
  }

  /** A buffer is kept only while something in it has not been read. */
  predicate Ready(r: InState) {
    && Plausible(r.script)
    && (r.drain.Some? ==> r.drain.value.off < r.drain.value.end <= |r.drain.value.buffer|)
  }

  function Remainder(r: InState): Bytes
    requires Ready(r)
  {
    if r.drain.None? then [] else r.drain.value.buffer[r.drain.value.off..r.drain.value.end]
  }

  /** poll_read with `cap` bytes of room. */
  function PollRead(r: InState, cap: nat): (InState, ReadPoll)
    requires Ready(r)
    decreases |r.script|
  {
    if r.drain.Some? then
      var d := r.drain.value;
      var n := Min(d.end - d.off, cap);
      (r.(drain := if d.off + n >= d.end then None else Some(d.(off := d.off + n))),
       Got(d.buffer[d.off..d.off + n]))
    else if r.script == [] then (r, Stalled)
    else
      var r1 := r.(script := r.script[1..]);
      match r.script[0]
      case Wait => (r1, Stalled)
      case Error => (r1, Lost)
      case Received(b, len) =>
        if len == 0 then PollRead(r1, cap) else Deliver(r1, b, len, cap)
  }

  /** The turn of the loop after a completion with data: always the draining branch. */
  function Deliver(r: InState, b: Bytes, len: nat, cap: nat): (InState, ReadPoll)
    requires 0 < len <= |b|
  {
    var n := Min(len, cap);
    (r.(drain := if n >= len then None else Some(Drain(b, n, len))), Got(b[..n]))
  }

  /** Everything the completed transfers to come will bring, errors or not. */
  function AllData(script: seq<InAnswer>): Bytes
    requires Plausible(script)
  {
    if script == [] then []
    else (if script[0].Received? then script[0].buffer[..script[0].len] else []) + AllData(script[1..])
  }

  /** What will arrive before the first error. */
  function Coming(script: seq<InAnswer>): Bytes
    requires Plausible(script)
  {
    if script == [] || script[0].Error? then []
    else (if script[0].Received? then script[0].buffer[..script[0].len] else []) + Coming(script[1..])
  }

  function Stream(r: InState): Bytes
    requires Ready(r)
  {
    Remainder(r) + Coming(r.script)
  }

  function BytesOf(p: ReadPoll): Bytes {
    if p.Got? then p.bytes else []
  }

  /** Reading `n` bytes off the kept buffer. */
  lemma Drained(r: InState, cap: nat)
    requires Ready(r) && r.drain.Some?
    ensures var (r', p) := PollRead(r, cap);
            && Ready(r') && r'.script == r.script && p.Got?
            && Remainder(r) == p.bytes + Remainder(r')
            && |p.bytes| <= cap && (0 < cap ==> p.bytes != [])
  {
    var d := r.drain.value;
    var n := Min(d.end - d.off, cap);
    assert d.buffer[d.off..d.end] == d.buffer[d.off..d.off + n] + d.buffer[d.off + n..d.end];
  }

  lemma DeliverConserves(r: InState, b: Bytes, len: nat, cap: nat)
    requires Ready(r) && r.drain.None? && 0 < len <= |b|
    ensures var (r', p) := Deliver(r, b, len, cap);
            && Ready(r') && r'.script == r.script && p.Got?
            && b[..len] == p.bytes + Remainder(r')
            && |p.bytes| <= cap && (0 < cap ==> p.bytes != [])
  {
    var n := Min(len, cap);
    assert b[..len] == b[..n] + b[n..len];
  }

  /** No byte is lost, invented or moved. */
  predicate Conserved(r: InState, r': InState, p: ReadPoll) {
    && Ready(r) && Ready(r')
    && Remainder(r) + AllData(r.script) == BytesOf(p) + (Remainder(r') + AllData(r'.script))
    && (p.Lost? ==> Stream(r) == [])
    && (!p.Lost? ==> Stream(r) == BytesOf(p) + Stream(r'))
  }

  lemma TakeConserves(r: InState, r': InState, p: ReadPoll, data: Bytes)
    requires Ready(r) && Ready(r') && p.Got? && data == p.bytes + Remainder(r')
    requires Remainder(r) + AllData(r.script) == data + AllData(r'.script)
    requires Stream(r) == data + Coming(r'.script)
    ensures Conserved(r, r', p)
  {
  }

  lemma ReceiveConserves(r: InState, r1: InState, r': InState, p: ReadPoll)
    requires Ready(r) && r.drain.None? && r.script != [] && r.script[0].Received?
    requires r1 == r.(script := r.script[1..]) && Ready(r1)
    requires (r.script[0].len == 0 && Conserved(r1, r', p))
             || (Ready(r') && r'.script == r1.script && p.Got?
                 && r.script[0].buffer[..r.script[0].len] == p.bytes + Remainder(r'))
    ensures Conserved(r, r', p)
  {
    var a := r.script[0];
    assert AllData(r.script) == a.buffer[..a.len] + AllData(r1.script);
    assert Coming(r.script) == a.buffer[..a.len] + Coming(r1.script);
    if r'.script == r1.script && p.Got? && a.buffer[..a.len] == p.bytes + Remainder(r') {
      TakeConserves(r, r', p, a.buffer[..a.len]);
    }
  }

  /** One poll: whatever it returns, the bytes are conserved; a caller with room never sees a
      zero-byte success, and never more than it has room for. Up to the first error what it hands
      out is the byte stream; an error is reported only when everything before it has been read. */
  lemma {:induction false} PollReads(r: InState, cap: nat)
    requires Ready(r)
    ensures var (r', p) := PollRead(r, cap);
            && Conserved(r, r', p)
            && |BytesOf(p)| <= cap
            && (p.Got? && 0 < cap ==> p.bytes != [])
            && (p.Stalled? ==> Remainder(r') == [] && (r'.script == [] || |r'.script| < |r.script|))
            && |r'.script| <= |r.script|
    decreases |r.script|
  {
    var (r', p) := PollRead(r, cap);
    if r.drain.Some? {
      Drained(r, cap);
      TakeConserves(r, r', p, Remainder(r));
    } else if r.script != [] {
      var r1 := r.(script := r.script[1..]);
      match r.script[0]
      case Received(b, len) =>
        if len == 0 {
          PollReads(r1, cap);
        } else {
          DeliverConserves(r1, b, len, cap);
        }
        ReceiveConserves(r, r1, r', p);
      case _ =>
    }
  }

  /** Polling with any sequence of buffer sizes. */
  function Polls(r: InState, caps: seq<nat>): (InState, seq<ReadPoll>)
    requires Ready(r)
    decreases |caps|
  {
    if caps == [] then (r, [])
    else
      var (r1, p) := PollRead(r, caps[0]);
      PollReads(r, caps[0]);
      var (r', ps) := Polls(r1, caps[1..]);
      (r', [p] + ps)
  }

  function BytesOfAll(ps: seq<ReadPoll>): Bytes {
    if ps == [] then [] else BytesOf(ps[0]) + BytesOfAll(ps[1..])
  }

  /** Over any run of polls, through errors and empty completions: what was handed out, then the
      undrained remainder, is the data of the completed transfers consumed so far, in order. */
  predicate Fair(ps: seq<ReadPoll>, caps: seq<nat>) {
    |ps| == |caps|
    && forall i :: 0 <= i < |ps| && ps[i].Got? ==> |ps[i].bytes| <= caps[i] && (0 < caps[i] ==> ps[i].bytes != [])
  }

  lemma RegroupBytes(got: Bytes, more: Bytes, rem: Bytes, rest: Bytes)
    ensures got + (more + rem + rest) == got + more + rem + rest
  {
  }

  lemma {:induction false} ReaderConserves(r: InState, caps: seq<nat>)
    requires Ready(r)
    ensures var (r', ps) := Polls(r, caps);
            && Ready(r')
            && Remainder(r) + AllData(r.script) == BytesOfAll(ps) + Remainder(r') + AllData(r'.script)
            && Fair(ps, caps)
    decreases |caps|
  {
    if caps != [] {
      PollReads(r, caps[0]);
      var (r1, p) := PollRead(r, caps[0]);
      ReaderConserves(r1, caps[1..]);
      var (r', ps) := Polls(r1, caps[1..]);
      assert ([p] + ps)[1..] == ps;
      RegroupBytes(BytesOf(p), BytesOfAll(ps), Remainder(r'), AllData(r'.script));
      assert Remainder(r1) + AllData(r1.script) == BytesOfAll(ps) + Remainder(r') + AllData(r'.script);
    }
  }
}
