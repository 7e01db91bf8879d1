/** BulkWriter and BulkReader of src/usb/bulk_io.rs, each poll shown to do what BulkSpec says. The
    endpoints stand for nusb's: they log submissions, and answer polls from a script. */
module BulkIo {
  import opened Prelude
  import opened BulkSpec

  const DEFAULT_MAX_OUT := 64 * 1024

  class OutEndpoint {
    const maxPacketSize: nat
    var pending: nat
    var script: seq<OutAnswer>
    var submitted: seq<Bytes>

    constructor (maxPacketSize: nat, script: seq<OutAnswer>)
      ensures this.maxPacketSize == maxPacketSize && this.script == script && pending == 0 && submitted == []
    {
      this.maxPacketSize, this.script, pending, submitted := maxPacketSize, script, 0, [];
    }

    method Submit(transfer: Bytes)
      modifies this
      ensures pending == old(pending) + 1 && submitted == old(submitted) + [transfer] && script == old(script)
    {
      pending := pending + 1;
      submitted := submitted + [transfer];
    }

    /** Only meaningful while a transfer is pending. */
    method PollNextComplete() returns (answer: OutAnswer)
      requires 0 < pending
      modifies this
      ensures submitted == old(submitted)
      ensures script == if old(script) == [] then [] else old(script)[1..]
      ensures answer == if old(script) == [] then NotYet else old(script)[0]
      ensures pending == if answer.Completed? then old(pending) - 1 else old(pending)
    {
      answer := NotYet;
      if script != [] {
        answer := script[0];
        script := script[1..];
      }
      if answer.Completed? {
        pending := pending - 1;
      }
    }
  }

  class BulkWriter {
    const ep: OutEndpoint
    var maxOut: nat
    var inFlight: bool
    var bytesSinceFlush: nat
    var zlpSent: bool

    constructor (ep: OutEndpoint)
      requires 0 < ep.maxPacketSize && ep.pending == 0
      ensures Valid() && fresh(this) && this.ep == ep
      ensures View() == OutState(ep.maxPacketSize, DEFAULT_MAX_OUT, ep.script, ep.submitted, false, 0, false)
    {
      this.ep, maxOut, inFlight, bytesSinceFlush, zlpSent := ep, DEFAULT_MAX_OUT, false, 0, false;
    }

    /** At most one transfer is in flight, exactly when `inFlight` says so. */
    ghost predicate Valid()
      reads this, ep
    {
      0 < ep.maxPacketSize && 0 < maxOut && ep.pending == if inFlight then 1 else 0
    }

    ghost function View(): (w: OutState)
      reads this, ep
    {
      OutState(ep.maxPacketSize, maxOut, ep.script, ep.submitted, inFlight, bytesSinceFlush, zlpSent)
    }

    method WithMaxOut(max: nat)
      requires Valid()
      modifies this`maxOut
      ensures Valid() && View() == old(View()).(maxOut := Max(max, 1))
    {
      maxOut := Max(max, 1);
    }

    method PollDrain() returns (p: FlushPoll)
      requires Valid()
      modifies this`inFlight, ep
      ensures Valid() && (View(), p) == BulkSpec.PollDrain(old(View()))
      ensures !p.Pending? ==> !inFlight
    {
      if !inFlight {
        return Done;
      }
      var answer := ep.PollNextComplete();
      if answer.NotYet? {
        return Pending;
      }
      inFlight := false;
      return if answer.ok then Done else Failed;
    }

    method PollWrite(buf: Bytes) returns (p: WritePoll)
      requires Valid()
      modifies this, ep
      ensures Valid() && (View(), p) == BulkSpec.PollWrite(old(View()), buf)
    {
      var drained := PollDrain();
      if drained.Pending? {
        return Blocked;
      }
      if drained.Failed? {
        return Broken;
      }
      if buf == [] {
        return Accepted(0);
      }
      var n := Min(|buf|, maxOut);
      ep.Submit(buf[..n]);
      inFlight := true;
      bytesSinceFlush := bytesSinceFlush + n;
      zlpSent := false;
      return Accepted(n);
    }

    method PollFlush() returns (p: FlushPoll)
      requires Valid()
      modifies this, ep
      ensures Valid() && (View(), p) == BulkSpec.PollFlush(old(View()))
    {
      while true
        invariant Valid() && BulkSpec.PollFlush(View()) == BulkSpec.PollFlush(old(View()))
        decreases !zlpSent
      {
        var drained := PollDrain();
        if !drained.Done? {
          return drained;
        }
        if !zlpSent && bytesSinceFlush > 0 && bytesSinceFlush % ep.maxPacketSize == 0 {
          zlpSent := true;
          ep.Submit([]);
          inFlight := true;
          continue;
        }
        bytesSinceFlush := 0;
        return Done;
      }
    }
  }

  class InEndpoint {
    const maxPacketSize: nat
    var pending: nat
    var script: seq<InAnswer>
    var requested: seq<nat>

    constructor (maxPacketSize: nat, script: seq<InAnswer>)
      ensures this.maxPacketSize == maxPacketSize && this.script == script && pending == 0 && requested == []
    {
      this.maxPacketSize, this.script, pending, requested := maxPacketSize, script, 0, [];
    }

    method Submit(size: nat)
      modifies this
      ensures pending == old(pending) + 1 && requested == old(requested) + [size] && script == old(script)
    {
      pending := pending + 1;
      requested := requested + [size];
    }

    method PollNextComplete() returns (answer: InAnswer)
      requires 0 < pending
      modifies this
      ensures requested == old(requested)
      ensures script == if old(script) == [] then [] else old(script)[1..]
      ensures answer == if old(script) == [] then Wait else old(script)[0]
      ensures pending == if answer.Wait? then old(pending) else old(pending) - 1
    {
      answer := Wait;
      if script != [] {
        answer := script[0];
        script := script[1..];
      }
      if !answer.Wait? {
        pending := pending - 1;
      }
    }
  }

  /** usize::div_ceil */
  function DivCeil(a: nat, b: nat): nat
    requires 0 < b
  {
    (a + b - 1) / b
  }

  function RoundUp(size: nat, mps: nat): nat
    requires 0 < mps
  {
    Max(DivCeil(size, mps), 1) * mps
  }

  /** The transfer size is the smallest positive multiple of the packet size that holds `size`. */
  lemma RoundUpIsLeast(size: nat, mps: nat)
    requires 0 < mps
    ensures var r := RoundUp(size, mps);
            && 0 < r && r % mps == 0 && size <= r
            && forall k: nat {:trigger k * mps} :: 0 < k && size <= k * mps ==> r <= k * mps
  {
    var q := Max(DivCeil(size, mps), 1);
    var r := q * mps;
    DivUnique(r, mps, q, 0);
    var d := DivCeil(size, mps);
    assert size + mps - 1 == mps * d + (size + mps - 1) % mps;
    MulMono(mps, d, q);
    MulMono(mps, 1, q);
    forall k: nat {:trigger k * mps} | 0 < k && size <= k * mps ensures r <= k * mps {
      if k < d {
        MulMono(mps, k, d - 1);
      }
      MulMono(mps, q, k);
    }
  }

  class BulkReader {
    const ep: InEndpoint
    const transferSize: nat
    var inFlightTarget: nat
    var drain: Option<Drain>

    constructor (ep: InEndpoint, size: nat)
      requires 0 < ep.maxPacketSize && ep.pending == 0 && ep.requested == [] && Plausible(ep.script)
      ensures Valid() && fresh(this) && this.ep == ep && transferSize == RoundUp(size, ep.maxPacketSize)
      ensures View() == InState(ep.script, None) && inFlightTarget == 1
    {
      this.ep, transferSize, inFlightTarget, drain := ep, RoundUp(size, ep.maxPacketSize), 1, None;
    }

    /** Every transfer ever submitted asks for `transferSize` bytes. */
    ghost predicate Valid()
      reads this, ep
    {
      && 0 < inFlightTarget
      && Ready(View())
      && forall i :: 0 <= i < |ep.requested| ==> ep.requested[i] == transferSize
    }

    ghost function View(): InState
      reads this, ep
    {
      InState(ep.script, drain)
    }

    method WithInFlight(n: nat)
      requires Valid()
      modifies this`inFlightTarget
      ensures Valid() && inFlightTarget == Max(n, 1) && View() == old(View())
    {
      inFlightTarget := Max(n, 1);
    }

    method SubmitUntilTarget()
      requires Valid()
      modifies ep
      ensures Valid() && View() == old(View())
      ensures ep.pending == Max(old(ep.pending), inFlightTarget)
    {
      while ep.pending < inFlightTarget
        invariant Valid() && View() == old(View())
        invariant ep.pending == old(ep.pending) || ep.pending <= inFlightTarget
        invariant old(ep.pending) <= ep.pending
      {
        ep.Submit(transferSize);
      }
    }

    /** poll_read with room for `cap` bytes. */
    method PollRead(cap: nat) returns (p: ReadPoll)
      requires Valid()
      modifies this`drain, ep
      ensures Valid() && (View(), p) == BulkSpec.PollRead(old(View()), cap)
      ensures ep.pending <= Max(old(ep.pending), inFlightTarget)
    {
      while true
        invariant Valid() && ep.pending <= Max(old(ep.pending), inFlightTarget)
        invariant BulkSpec.PollRead(View(), cap) == BulkSpec.PollRead(old(View()), cap)
        decreases |ep.script|
      {
        if drain.Some? {
          var d := drain.value;
          var avail := d.buffer[d.off..d.end];
          var n := Min(|avail|, cap);
          var off := d.off;
          p := Got([]);
          if n > 0 {
            p := Got(avail[..n]);
            off := off + n;
          }
          drain := if off >= d.end then None else Some(d.(off := off));
          assert avail[..n] == d.buffer[d.off..d.off + n];
          return;
        }
        SubmitUntilTarget();
        var answer := ep.PollNextComplete();
        match answer {
          case Wait =>
            return Stalled;
          case Error =>
            return Lost;
          case Received(b, len) =>
            if len == 0 {
              continue;
            }
            drain := Some(Drain(b, 0, len));
        }
      }
    }
  }
}
